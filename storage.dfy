/** Progress persistence: the wizard's position is kept as JSON text under one key of
    the browser's local store; reading it back turns absent, empty and unparsable text
    into `null` instead of failing. */
module Storage {

  datatype Option<T> = None | Some(value: T)

  /** A JSON value, as parsing produces it.  `JNull` doubles as the "no saved data"
      answer of the loader, since the two cannot be told apart by its callers. */
  datatype Json =
    | JNull
    | JBool(b: bool)
    | JNumber(n: real)
    | JString(s: string)
    | JArray(elems: seq<Json>)
    | JObject(members: map<string, Json>)

  /** The record the wizard saves: an optional step name. */
  datatype SubscriptionData = SubscriptionData(currentStep: Option<string>)

  /** The store key the record lives under. */
  const StorageKey: string := "subscriptionData"

  /** The record member that holds the step name. */
  const CurrentStepKey: string := "currentStep"

  /** The text serializer and the parser, which yields `None` where parsing throws. */
  datatype JsonCodec = JsonCodec(stringify: Json -> string, parse: string -> Option<Json>)

  /** The parser reads back every record the wizard saves, and no such record
      serializes to the empty text. */
  ghost predicate Inverse(codec: JsonCodec)
  {
    forall d: SubscriptionData ::
      codec.stringify(ToJson(d)) != "" && codec.parse(codec.stringify(ToJson(d))) == Some(ToJson(d))
  }

  /** The JSON value a record serializes as: an absent step is left out of the object. */
  function ToJson(d: SubscriptionData): (j: Json)
    ensures j.JObject? && j.members.Keys <= {CurrentStepKey}
    ensures CurrentStepKey in j.members <==> d.currentStep.Some?
    ensures StepOf(j) == d.currentStep
  {
    match d.currentStep
    case None => JObject(map[])
    case Some(step) => JObject(map[CurrentStepKey := JString(step)])
  }

  /** Optional member access `data?.name`: `None` stands for `undefined`, which is
      what every non-object and every object without the member give. */
  function Member(data: Json, name: string): Option<Json>
  {
    if data.JObject? && name in data.members then Some(data.members[name]) else None
  }

  /** The step name held by a loaded value, when it holds one as a string. */
  function StepOf(data: Json): Option<string>
  {
    match Member(data, CurrentStepKey)
    case Some(JString(s)) => Some(s)
    case _ => None
  }

  /** Conversion to a boolean: `undefined`, `null`, `false`, zero and the empty string
      are false; everything else, every object and array included, is true. */
  function Truthy(v: Option<Json>): bool
  {
    match v
    case None => false
    case Some(JNull) => false
    case Some(JBool(b)) => b
    case Some(JNumber(n)) => n != 0.0
    case Some(JString(s)) => s != ""
    case Some(JArray(_)) => true
    case Some(JObject(_)) => true
  }

  /** What loading yields for a store snapshot: `JNull` without a window, without a
      stored text, for an empty text, and for a text that does not parse; otherwise
      the parsed value. */
  function Loaded(hasWindow: bool, codec: JsonCodec, items: map<string, string>): (r: Json)
    ensures r != JNull ==>
              hasWindow && StorageKey in items && items[StorageKey] != ""
              && codec.parse(items[StorageKey]) == Some(r)
    ensures (hasWindow && StorageKey in items && items[StorageKey] != ""
             && codec.parse(items[StorageKey]).Some?) ==> r == codec.parse(items[StorageKey]).value
  {
    if !hasWindow then JNull
    else if StorageKey !in items || items[StorageKey] == "" then JNull
    else match codec.parse(items[StorageKey])
      case Some(data) => data
      case None => JNull
  }

  /** The two flags that `getInitialStates` returns. */
  datatype InitialStates = InitialStates(isSubscriptionComplete: bool, isAMLComplete: bool)

  /** A loaded value records a step: its step member is truthy and not the empty string. */
  function RecordsStep(data: Json): bool
  {
    var step := Member(data, CurrentStepKey);
    Truthy(step) && step != Some(JString(""))
  }

  /** The initial flags for a loaded value: both say whether a step was recorded. */
  function InitialStatesOf(data: Json): (r: InitialStates)
    ensures r.isSubscriptionComplete <==>
              data.JObject? && CurrentStepKey in data.members
              && Truthy(Some(data.members[CurrentStepKey]))
    ensures r.isAMLComplete == r.isSubscriptionComplete
    ensures data == JNull ==> !r.isSubscriptionComplete
  {
    InitialStates(RecordsStep(data), RecordsStep(data))
  }

  /** When the step member is a string, the wizard counts as complete exactly when that
      string is non-empty. */
  lemma CompleteIffNonEmptyStep(data: Json, step: string)
    requires Member(data, CurrentStepKey) == Some(JString(step))
    ensures InitialStatesOf(data).isSubscriptionComplete <==> step != ""
  {
  }

  /** Saving a record and loading it back gives the record's JSON value, hence its step. */
  lemma SaveThenLoad(codec: JsonCodec, items: map<string, string>, d: SubscriptionData)
    requires Inverse(codec)
    ensures Loaded(true, codec, items[StorageKey := codec.stringify(ToJson(d))]) == ToJson(d)
    ensures StepOf(Loaded(true, codec, items[StorageKey := codec.stringify(ToJson(d))])) == d.currentStep
  {
    var text := codec.stringify(ToJson(d));
    assert text != "" && codec.parse(text) == Some(ToJson(d));
  }

  /** After a record is saved, the flags read back say "complete" exactly when the
      record's step name is present and non-empty. */
  lemma CompleteAfterSave(codec: JsonCodec, items: map<string, string>, d: SubscriptionData)
    requires Inverse(codec)
    ensures InitialStatesOf(Loaded(true, codec, items[StorageKey := codec.stringify(ToJson(d))])).isSubscriptionComplete
            <==> d.currentStep.Some? && d.currentStep.value != ""
  {
    SaveThenLoad(codec, items, d);
  }

  /** Serializes a record's step as the text "s" followed by the step name, and
      anything else as "n"; parses those two shapes back.  It shows that `Inverse`
      can be met. */
  function TaggedStringify(j: Json): string
  {
    match StepOf(j)
    case Some(step) => "s" + step
    case None => "n"
  }

  function TaggedParse(text: string): Option<Json>
  {
    if text == "n" then Some(JObject(map[]))
    else if |text| > 0 && text[0] == 's' then Some(JObject(map[CurrentStepKey := JString(text[1..])]))
    else None
  }

  /** Some codec reads back every saved record, so the round-trip lemmas are not vacuous. */
  lemma InverseCanHold()
    ensures exists c :: Inverse(c)
  {
    var c := JsonCodec(TaggedStringify, TaggedParse);
    forall d: SubscriptionData
      ensures c.stringify(ToJson(d)) != "" && c.parse(c.stringify(ToJson(d))) == Some(ToJson(d))
    {
      match d.currentStep
      case None =>
      case Some(step) =>
        assert ("s" + step)[1..] == step;
    }
    assert Inverse(c);
  }

  /** The browser's local store, seen through the two persistence helpers. */
  class BrowserStorage {
    /** Whether code runs in a browser (there is a `window`); fixed for a run. */
    const hasWindow: bool
    const codec: JsonCodec
    /** The store's keys and their texts; an absent key reads as no text. */
    var items: map<string, string>

    constructor (hasWindow: bool, codec: JsonCodec, items: map<string, string>)
      ensures this.hasWindow == hasWindow && this.codec == codec && this.items == items
    {
      this.hasWindow, this.codec, this.items := hasWindow, codec, items;
    }

    /** Load the saved record; absent, empty and unparsable text give `JNull`. */
    method GetSubscriptionData() returns (data: Json)
      ensures data == Loaded(hasWindow, codec, items)
    {
      if !hasWindow {
        return JNull;
      }
      if StorageKey !in items || items[StorageKey] == "" {
        return JNull;
      }
      var parsed := codec.parse(items[StorageKey]);
      match parsed
      case Some(value) =>
        data := value;
      case None =>
        data := JNull;
    }

    /** Save the record under its key; without a window nothing happens. */
    method SaveSubscriptionData(d: SubscriptionData)
      modifies this
      ensures hasWindow ==> items == old(items)[StorageKey := codec.stringify(ToJson(d))]
      ensures !hasWindow ==> items == old(items)
      ensures forall k :: k != StorageKey ==>
                (k in items <==> k in old(items)) && (k in items ==> items[k] == old(items)[k])
    {
      if !hasWindow {
        return;
      }
      items := items[StorageKey := codec.stringify(ToJson(d))];
    }

    /** The two flags, computed from whatever loading yields. */
    method GetInitialStates() returns (r: InitialStates)
      ensures r == InitialStatesOf(Loaded(hasWindow, codec, items))
      ensures r.isAMLComplete == r.isSubscriptionComplete
    {
      var data := GetSubscriptionData();
      r := InitialStatesOf(data);
    }
  }

  /** A save followed by a load in the same browser gives back the saved step name. */
  method SaveAndResume(store: BrowserStorage, step: string) returns (resumed: Option<string>)
    requires store.hasWindow && Inverse(store.codec)
    modifies store
    ensures resumed == Some(step)
  {
    store.SaveSubscriptionData(SubscriptionData(Some(step)));
    var data := store.GetSubscriptionData();
    SaveThenLoad(store.codec, old(store.items), SubscriptionData(Some(step)));
    resumed := StepOf(data);
  }
}
