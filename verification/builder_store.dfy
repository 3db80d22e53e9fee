/** The strategy builder's store: the edited configuration (an ordered list of
    conditions, the AND/OR combinator, the side, the entry and exit rules) and the list
    of saved strategies. Every action is a pure function of the state; fresh ids and the
    server's replies are parameters. */
module BuilderStore {
  import opened Wrappers
  import opened Text
  import opened Numbers
  import opened Json
  import opened JsValues
  import opened Vocabulary
  import opened StrategyValidation

  datatype SavedStrategy = SavedStrategy(id: int, name: string)

  /** The store. Conditions are the builder's condition objects; the other configuration
      fields hold whatever was set or loaded. */
  datatype Builder = Builder(
    conditions: seq<Json>,
    logicalOperator: Json,
    action: Json,
    entry: Json,
    exit: Json,
    saved: seq<SavedStrategy>)

  function DefaultCondition(id: string): Json {
    JObj(map["id" := JStr(id), "indicator" := JStr("RSI"), "operator" := JStr("less_than"),
             "value" := JStr("30"), "period" := JInt(14)])
  }

  /** The condition `addCondition` appends: MACD crossing above its signal line. */
  function NewCondition(id: string): Json {
    JObj(map["id" := JStr(id), "indicator" := JStr("MACD"), "operator" := JStr("crosses_above"),
             "value" := JStr("Signal Line"), "fast_period" := JInt(12), "slow_period" := JInt(26),
             "signal_period" := JInt(9)])
  }

  const DefaultEntry: Json :=
    JObj(map["positionSizing" := JStr("fixed_percentage"), "sizingValue" := JInt(2), "maxPositionSize" := JInt(10)])

  const DefaultStopLoss: Json := JObj(map["type" := JStr("fixed_percentage"), "value" := JInt(5)])

  const DefaultTakeProfit: Json :=
    JObj(map["type" := JStr("risk_reward_ratio"), "value" := JInt(2), "riskRewardRatio" := JInt(2)])

  const DefaultExit: Json :=
    JObj(map["type" := JStr("manual"), "stopLoss" := DefaultStopLoss, "takeProfit" := DefaultTakeProfit])

  /** `initialState`; the id of its condition is drawn once, when the module loads. */
  function Initial(bootId: string): Builder {
    Builder([DefaultCondition(bootId)], JStr("AND"), JStr("LONG"), DefaultEntry, DefaultExit, [])
  }

  /** `c.id === id`. */
  predicate HasId(c: Json, id: string) {
    Field(c, "id") == Some(JStr(id))
  }

  /** `addCondition`, with the id `nanoid()` returns. */
  function AddCondition(b: Builder, freshId: string): (r: Builder)
    ensures |r.conditions| == |b.conditions| + 1 && r.conditions[..|b.conditions|] == b.conditions
    ensures r.conditions[|b.conditions|] == NewCondition(freshId)
    ensures r.(conditions := b.conditions) == b
  {
    b.(conditions := b.conditions + [NewCondition(freshId)])
  }

  /** One condition after `updateCondition(id, field, value)`. */
  function UpdateOne(c: Json, id: string, field: string, v: Option<Json>): Json {
    if HasId(c, id) then JObj(Put(c.fields, field, v)) else c
  }

  /** `updateCondition(id, field, value)`; None stands for `undefined`. */
  function UpdateCondition(b: Builder, id: string, field: string, v: Option<Json>): (r: Builder)
    ensures |r.conditions| == |b.conditions|
    ensures r.(conditions := b.conditions) == b
    ensures forall k :: 0 <= k < |b.conditions| && !HasId(b.conditions[k], id) ==> r.conditions[k] == b.conditions[k]
    ensures forall k :: 0 <= k < |b.conditions| && HasId(b.conditions[k], id) ==>
              && r.conditions[k].JObj?
              && Field(r.conditions[k], field) == v
              && (forall g :: g != field ==> Field(r.conditions[k], g) == Field(b.conditions[k], g))
  {
    b.(conditions := seq(|b.conditions|, k requires 0 <= k < |b.conditions| => UpdateOne(b.conditions[k], id, field, v)))
  }

  /** The conditions without the ones carrying `id`, in order. */
  function Without(cs: seq<Json>, id: string): (r: seq<Json>)
    ensures |r| <= |cs|
    ensures forall k :: 0 <= k < |r| ==> !HasId(r[k], id) && r[k] in cs
    ensures forall c :: c in cs && !HasId(c, id) ==> c in r
  {
    if |cs| == 0 then []
    else if HasId(cs[0], id) then Without(cs[1..], id)
    else [cs[0]] + Without(cs[1..], id)
  }

  /** `removeCondition(id)`. */
  function RemoveCondition(b: Builder, id: string): (r: Builder)
    ensures r.conditions == Without(b.conditions, id)
    ensures r.(conditions := b.conditions) == b
  {
    b.(conditions := Without(b.conditions, id))
  }

  /** `resetBuilder`: the initial configuration; the saved list is kept. */
  function Reset(b: Builder, bootId: string): (r: Builder)
    ensures r.saved == b.saved && r.(saved := []) == Initial(bootId)
  {
    Initial(bootId).(saved := b.saved)
  }

  // ---- Properties of the condition list ----

  /** Removing distributes over concatenation, so the kept conditions keep their order. */
  lemma {:induction false} WithoutAppend(a: seq<Json>, c: seq<Json>, id: string)
    ensures Without(a + c, id) == Without(a, id) + Without(c, id)
  {
    if |a| == 0 {
      assert a + c == c;
    } else {
      assert (a + c)[1..] == a[1..] + c;
      WithoutAppend(a[1..], c, id);
    }
  }

  /** Removing an id no condition carries changes nothing. */
  lemma {:induction false} WithoutAbsent(cs: seq<Json>, id: string)
    requires forall k :: 0 <= k < |cs| ==> !HasId(cs[k], id)
    ensures Without(cs, id) == cs
  {
    if |cs| > 0 {
      WithoutAbsent(cs[1..], id);
    }
  }

  /** Adding a condition and removing it again restores the list, when its fresh id is
      not already in use. */
  lemma AddThenRemove(b: Builder, freshId: string)
    requires forall k :: 0 <= k < |b.conditions| ==> !HasId(b.conditions[k], freshId)
    ensures RemoveCondition(AddCondition(b, freshId), freshId) == b
  {
    WithoutAppend(b.conditions, [NewCondition(freshId)], freshId);
    WithoutAbsent(b.conditions, freshId);
    assert HasId(NewCondition(freshId), freshId);
    assert Without([NewCondition(freshId)], freshId) == [];
  }

  /** Updating an id no condition carries changes nothing. */
  lemma UpdateUnknownIdIsNoop(b: Builder, id: string, field: string, v: Option<Json>)
    requires forall k :: 0 <= k < |b.conditions| ==> !HasId(b.conditions[k], id)
    ensures UpdateCondition(b, id, field, v) == b
  {
  }

  /** Updating any field but `id` keeps every condition's id. */
  lemma UpdateKeepsIds(b: Builder, id: string, field: string, v: Option<Json>)
    requires field != "id"
    ensures forall k :: 0 <= k < |b.conditions| ==>
              Field(UpdateCondition(b, id, field, v).conditions[k], "id") == Field(b.conditions[k], "id")
  {
  }

  // ---- Saving ----

  /** A failed request: the HTTP status and body when a response arrived, and the
      error's own message. */
  datatype HttpError = HttpError(status: Option<int>, data: Option<Json>, message: string)

  datatype SaveRequest = SaveRequest(name: string, configuration: Json)

  /** What `saveStrategy` does: throws before any request, or posts and then either
      resolves with the response or throws the mapped message. */
  datatype SaveResult =
    | Rejected(reason: string)
    | Posted(request: SaveRequest, outcome: Result<Json, Json>)

  const NeedNameAndCondition := "Please provide a name and add at least one condition."

  function DuplicateName(name: string): string {
    "A strategy named \"" + name + "\" already exists."
  }

  /** The `StrategyConfiguration` object sent to the server. */
  function Configuration(b: Builder): Json {
    JObj(map["conditions" := JArr(b.conditions), "logicalOperator" := b.logicalOperator, "action" := b.action,
             "entryCondition" := b.entry, "exitCondition" := b.exit])
  }

  /** A saved name equal to `name` ignoring case. */
  predicate NameTaken(saved: seq<SavedStrategy>, name: string) {
    exists k :: 0 <= k < |saved| && Lower(saved[k].name) == Lower(name)
  }

  /** `x[0]` of a non-empty array or string; None when `x.length > 0` does not hold. */
  function FirstItem(x: Json): Option<Json> {
    match x
    case JArr(items) => if |items| > 0 then Some(items[0]) else None
    case JStr(s) => if |s| > 0 then Some(JStr([s[0]])) else None
    case _ => None
  }

  /** `d.non_field_errors && d.non_field_errors.length > 0`. */
  predicate HasNonFieldErrors(d: Json) {
    var nfe := Field(d, "non_field_errors");
    nfe.Some? && JsTruthy(nfe.value) && FirstItem(nfe.value).Some?
  }

  /** `d.name` is an array whose first item is a string mentioning the strategy limit. */
  predicate LimitNameError(d: Json) {
    var n := Field(d, "name");
    n.Some? && n.value.JArr? && |n.value.items| > 0 && n.value.items[0].JStr?
    && Contains(n.value.items[0].s, "strategy limit")
  }

  /** The message a 400 response's body supplies, in order of preference. */
  function BodyMessage(d: Json): (r: Option<Json>)
    requires d.JObj?
    ensures r.Some? ==> JsTruthy(r.value) || (exists k :: k in d.fields && FirstItem(d.fields[k]) == r)
  {
    if HasNonFieldErrors(d) then FirstItem(Field(d, "non_field_errors").value)
    else if Has(d, "detail") then Field(d, "detail")
    else if Has(d, "error") then Field(d, "error")
    else if LimitNameError(d) then Some(Field(d, "name").value.items[0])
    else None
  }

  /** A 400 response whose body is an object: the case whose message may come from the body. */
  predicate ObjectBody400(e: HttpError) {
    e.status == Some(400) && e.data.Some? && e.data.value.JObj?
  }

  /** The value the rethrown `Error` carries (its message is that value as text). */
  function ErrorMessage(e: HttpError): (r: Json)
    ensures !ObjectBody400(e) ==> r.JStr?
    ensures ObjectBody400(e) && BodyMessage(e.data.value).None? ==> r.JStr? && StartsWith(r.s, "Request failed with status ")
  {
    var fromBody := if ObjectBody400(e) then BodyMessage(e.data.value) else None;
    if fromBody.Some? then fromBody.value
    else if e.status.Some? && e.status.value != 0 then
      JStr("Request failed with status " + IntToString(e.status.value) + ". Please try again.")
    else if e.message != "" then JStr(e.message)
    else JStr("An unexpected error occurred. Please try again.")
  }

  /** The body's `non_field_errors` win over everything else, then a truthy `detail`, then
      a truthy `error`, then a `name[0]` mentioning the strategy limit; a 400 whose body
      has none of these, and any other status, reports the status; without a status the
      error's own message, then a generic one. */
  lemma ErrorPrecedence(e: HttpError)
    ensures e.status == Some(400) && e.data.Some? && e.data.value.JObj?
            && Field(e.data.value, "non_field_errors").Some?
            && Field(e.data.value, "non_field_errors").value.JArr?
            && |Field(e.data.value, "non_field_errors").value.items| > 0
            ==> ErrorMessage(e) == Field(e.data.value, "non_field_errors").value.items[0]
    ensures ObjectBody400(e) && !HasNonFieldErrors(e.data.value) && Has(e.data.value, "detail")
            ==> ErrorMessage(e) == Field(e.data.value, "detail").value
    ensures ObjectBody400(e) && !HasNonFieldErrors(e.data.value) && !Has(e.data.value, "detail")
            && Has(e.data.value, "error")
            ==> ErrorMessage(e) == Field(e.data.value, "error").value
    ensures ObjectBody400(e) && !HasNonFieldErrors(e.data.value) && !Has(e.data.value, "detail")
            && !Has(e.data.value, "error") && LimitNameError(e.data.value)
            ==> ErrorMessage(e) == Field(e.data.value, "name").value.items[0]
    ensures ObjectBody400(e) && !HasNonFieldErrors(e.data.value) && !Has(e.data.value, "detail")
            && !Has(e.data.value, "error") && !LimitNameError(e.data.value)
            ==> ErrorMessage(e) == JStr("Request failed with status 400. Please try again.")
    ensures e.status.Some? && e.status.value != 0
            && !(ObjectBody400(e) && BodyMessage(e.data.value).Some?)
            ==> ErrorMessage(e) == JStr("Request failed with status " + IntToString(e.status.value) + ". Please try again.")
    ensures e.status.None? && e.message != "" ==> ErrorMessage(e) == JStr(e.message)
    ensures e.status.None? && e.message == "" ==> ErrorMessage(e) == JStr("An unexpected error occurred. Please try again.")
  {
    if ObjectBody400(e) {
      BodyPrecedence(e.data.value);
      StatusText400();
    }
  }

  lemma StatusText400()
    ensures "Request failed with status " + IntToString(400) + ". Please try again."
            == "Request failed with status 400. Please try again."
  {
    assert IntToString(400) == "400";
  }

  /** The order in which a 400 body's fields supply the message. */
  lemma BodyPrecedence(d: Json)
    requires d.JObj?
    ensures Field(d, "non_field_errors").Some? && Field(d, "non_field_errors").value.JArr?
            && |Field(d, "non_field_errors").value.items| > 0
            ==> BodyMessage(d) == Some(Field(d, "non_field_errors").value.items[0])
    ensures !HasNonFieldErrors(d) && Has(d, "detail") ==> BodyMessage(d) == Field(d, "detail")
    ensures !HasNonFieldErrors(d) && !Has(d, "detail") && Has(d, "error") ==> BodyMessage(d) == Field(d, "error")
    ensures !HasNonFieldErrors(d) && !Has(d, "detail") && !Has(d, "error") && LimitNameError(d)
            ==> BodyMessage(d) == Some(Field(d, "name").value.items[0])
    ensures !HasNonFieldErrors(d) && !Has(d, "detail") && !Has(d, "error") && !LimitNameError(d)
            ==> BodyMessage(d).None?
  {
  }

  /** `saveStrategy(name)`, with the server's reply to the post. */
  function SaveStrategy(b: Builder, name: string, reply: Result<Json, HttpError>): (r: SaveResult)
    ensures r.Rejected? <==> Trim(name) == "" || |b.conditions| == 0 || NameTaken(b.saved, Trim(name))
    ensures (Trim(name) == "" || |b.conditions| == 0) ==> r == Rejected(NeedNameAndCondition)
    ensures Trim(name) != "" && |b.conditions| > 0 && NameTaken(b.saved, Trim(name)) ==> r == Rejected(DuplicateName(Trim(name)))
    ensures r.Posted? ==> r.request == SaveRequest(Trim(name), Configuration(b))
    ensures r.Posted? ==> (r.outcome.Ok? <==> reply.Ok?)
    ensures r.Posted? && reply.Err? ==> r.outcome.error == ErrorMessage(reply.error)
  {
    var trimmed := Trim(name);
    if trimmed == "" || |b.conditions| == 0 then Rejected(NeedNameAndCondition)
    else if NameTaken(b.saved, trimmed) then Rejected(DuplicateName(trimmed))
    else
      var request := SaveRequest(trimmed, Configuration(b));
      match reply
      case Ok(response) => Posted(request, Ok(response))
      case Err(e) => Posted(request, Err(ErrorMessage(e)))
  }

  /** `fetchSavedStrategies`: a failed fetch leaves the list as it was. */
  function FetchSaved(b: Builder, reply: Option<seq<SavedStrategy>>): (r: Builder)
    ensures reply.None? ==> r == b
    ensures reply.Some? ==> r.saved == reply.value && r.(saved := b.saved) == b
  {
    match reply
    case Some(list) => b.(saved := list)
    case None => b
  }

  // ---- Loading and deleting ----

  /** `loadStrategy(id)` with the fetched strategy (None when the request fails): the
      stored configuration's fields, each replaced by its default when missing or falsy.
      Returns the new state and the strategy, or null (None) on failure. */
  function LoadStrategy(b: Builder, reply: Option<Json>): (r: (Builder, Option<Json>))
    ensures reply.None? ==> r == (b, None)
    ensures r.1.None? ==> r.0 == b
    ensures r.1.Some? ==> r.0.saved == b.saved && r.1 == reply
  {
    match reply
    case None => (b, None)
    case Some(strategy) =>
      var cfg := Field(strategy, "configuration");
      if cfg.None? || cfg.value == JNull then (b, None)
      else
        var c := cfg.value;
        var conditions := Or(Field(c, "conditions"), JArr([]));
        var loaded := Builder(
          if conditions.JArr? then conditions.items else [],
          Or(Field(c, "logicalOperator"), JStr("AND")),
          Or(Field(c, "action"), JStr("LONG")),
          Or(Field(c, "entryCondition"), DefaultEntry),
          Or(Field(c, "exitCondition"), DefaultExit),
          b.saved);
        (loaded, reply)
  }

  /** A configuration the builder saved loads back into the same state. */
  lemma SaveThenLoad(b: Builder, other: Builder)
    requires JsTruthy(b.logicalOperator) && JsTruthy(b.action) && JsTruthy(b.entry) && JsTruthy(b.exit)
    ensures var strategy := JObj(map["configuration" := Configuration(b)]);
      LoadStrategy(other, Some(strategy)) == (b.(saved := other.saved), Some(strategy))
  {
    ConfigurationReads(b);
    var strategy := JObj(map["configuration" := Configuration(b)]);
    assert Field(strategy, "configuration") == Some(Configuration(b));
  }

  /** A loaded configuration's missing or falsy parts take the initial values: no
      conditions, AND, LONG, and the initial entry and exit rules; a truthy part is
      taken as it is. */
  lemma LoadFillsDefaults(b: Builder, c: Json)
    requires c != JNull
    ensures var r := LoadStrategy(b, Some(JObj(map["configuration" := c])));
            && r.1.Some? && r.0.saved == b.saved
            && (!Has(c, "conditions") ==> r.0.conditions == [])
            && (!Has(c, "logicalOperator") ==> r.0.logicalOperator == JStr("AND"))
            && (!Has(c, "action") ==> r.0.action == JStr("LONG"))
            && (!Has(c, "entryCondition") ==> r.0.entry == DefaultEntry)
            && (!Has(c, "exitCondition") ==> r.0.exit == DefaultExit)
            && (Has(c, "conditions") && Field(c, "conditions").value.JArr? ==> r.0.conditions == Field(c, "conditions").value.items)
            && (Has(c, "logicalOperator") ==> r.0.logicalOperator == Field(c, "logicalOperator").value)
            && (Has(c, "action") ==> r.0.action == Field(c, "action").value)
            && (Has(c, "entryCondition") ==> r.0.entry == Field(c, "entryCondition").value)
            && (Has(c, "exitCondition") ==> r.0.exit == Field(c, "exitCondition").value)
  {
    assert Field(JObj(map["configuration" := c]), "configuration") == Some(c);
  }

  /** Each part of a saved configuration reads back under its own key. */
  lemma ConfigurationReads(b: Builder)
    ensures var c := Configuration(b);
            && Field(c, "conditions") == Some(JArr(b.conditions))
            && Field(c, "logicalOperator") == Some(b.logicalOperator)
            && Field(c, "action") == Some(b.action)
            && Field(c, "entryCondition") == Some(b.entry)
            && Field(c, "exitCondition") == Some(b.exit)
  {
  }

  /** A strategy record without a configuration fails to load and changes nothing. */
  lemma LoadWithoutConfiguration(b: Builder, strategy: Json)
    requires Field(strategy, "configuration").None?
    ensures LoadStrategy(b, Some(strategy)) == (b, None)
  {
  }

  datatype DeleteResult = NotRequested | DeleteFailed | Deleted

  /** `deleteStrategy(id)`, with whether the delete request succeeded: an id of 0 is
      ignored; a successful delete resets the builder. */
  function DeleteStrategy(b: Builder, id: int, succeeded: bool, bootId: string): (r: (Builder, DeleteResult))
    ensures id == 0 ==> r == (b, NotRequested)
    ensures id != 0 && !succeeded ==> r == (b, DeleteFailed)
    ensures r.1 == Deleted <==> id != 0 && succeeded
    ensures r.1 == Deleted ==> r.0 == Reset(b, bootId)
  {
    if id == 0 then (b, NotRequested)
    else if !succeeded then (b, DeleteFailed)
    else (Reset(b, bootId), Deleted)
  }

  // ---- What the builder sends passes the backend's validation ----

  /** The initial configuration is accepted by the backend validator. */
  lemma InitialConfigurationIsValid(bootId: string)
    ensures Validate(Configuration(Initial(bootId))) == Pass
  {
    var cfg := Configuration(Initial(bootId));
    DefaultConditionOk(bootId);
    DefaultEntryOk();
    DefaultExitOk();
    assert IsOneOf(JStr("LONG"), SideNames);
    assert WellFormed(cfg);
  }

  lemma DefaultConditionOk(bootId: string)
    ensures ConditionOk(DefaultCondition(bootId))
  {
    assert IsOneOf(JStr("RSI"), IndicatorNames);
    assert IsOneOf(JStr("less_than"), OperatorNames);
  }

  lemma DefaultEntryOk()
    ensures EntryOk(DefaultEntry)
  {
    assert IsOneOf(JStr("fixed_percentage"), SizingNames);
  }

  lemma DefaultExitOk()
    ensures ExitOk(DefaultExit)
  {
    assert PartOk(DefaultStopLoss, StopLossNames) by { assert IsOneOf(JStr("fixed_percentage"), StopLossNames); }
    assert PartOk(DefaultTakeProfit, TakeProfitNames) by { assert IsOneOf(JStr("risk_reward_ratio"), TakeProfitNames); }
  }

  /** Adding a condition keeps a valid configuration valid. */
  lemma AddKeepsValid(b: Builder, freshId: string)
    requires Validate(Configuration(b)) == Pass
    ensures Validate(Configuration(AddCondition(b, freshId))) == Pass
  {
    var r := AddCondition(b, freshId);
    assert ConditionOk(NewCondition(freshId)) by {
      assert IsOneOf(JStr("MACD"), IndicatorNames);
      assert IsOneOf(JStr("crosses_above"), OperatorNames);
    }
    assert WellFormed(Configuration(b));
    var cs := r.conditions;
    assert forall k :: 0 <= k < |cs| ==> ConditionOk(cs[k]) by {
      forall k | 0 <= k < |cs| ensures ConditionOk(cs[k]) {
        if k < |b.conditions| {
          assert cs[k] == Configuration(b).fields["conditions"].items[k];
        }
      }
    }
    assert WellFormed(Configuration(r));
  }
}
