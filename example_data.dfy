/** `ExampleData`, the concrete DTO of the test suite: two attributes, `first`
    (a string) and `second` (an integer), written by its constructor, and a
    `rules()` override that returns a constant rule map. The methods after
    `FromArray` replay the test suite's scenarios on the model. */
module ExampleData {
  import opened Php
  import opened DataTransferObjects
  import DtoMethodNotFoundException

  /** `get_class` of an `ExampleData` object. */
  const ClassName: string := "Tests\\Stubs\\ExampleData"

  /** The map that `ExampleData::rules()` returns. */
  const RuleSet: map<string, string> := map["first" := "required|string", "second" := "required|integer"]

  /** The bag a default-constructed `ExampleData` holds. */
  const Defaults: map<string, Value> := map["first" := Null, "second" := Null]

  /** The value stored for an optional string parameter. */
  function StringArgument(s: Option<string>): Value
  {
    match s
    case Some(text) => Str(text)
    case None => Null
  }

  /** The value stored for an optional integer parameter. */
  function IntArgument(n: Option<int>): Value
  {
    match n
    case Some(k) => Int(k)
    case None => Null
  }

  /** `new ExampleData($first, $second)`: two writes through `__set`, so a
      missing argument is stored as null and reads as null. */
  method New(first: Option<string>, second: Option<int>) returns (d: DataTransferObject)
    ensures fresh(d)
    ensures d.className == ClassName && d.rulesOverride == Some(RuleSet)
    ensures d.attributes == map["first" := StringArgument(first), "second" := IntArgument(second)]
    ensures d.rules == map[] && d.errors == None
    ensures d.HasAttribute("first") <==> first.Some?
    ensures d.HasAttribute("second") <==> second.Some?
  {
    d := new DataTransferObject(ClassName, Some(RuleSet));
    d.Set("first", StringArgument(first));
    d.Set("second", IntArgument(second));
  }

  /** `ExampleData::fromArray($data)`: a default-constructed instance, then one
      `__set` per entry of `data`, in the array's order. The result is the
      constructor's bag overlaid with the array: the entries override the
      constructor's nulls, and `first` or `second` missing from `data` stays
      null. */
  method FromArray(data: seq<(string, Value)>) returns (d: DataTransferObject)
    requires forall i :: 0 <= i < |data| ==> ReachesBag(data[i].0)
    ensures fresh(d)
    ensures d.className == ClassName && d.rulesOverride == Some(RuleSet)
    ensures d.attributes == Defaults + ToMap(data)
    ensures forall k :: k in ToMap(data) ==> d.Get(k) == ToMap(data)[k]
    ensures d.rules == map[] && d.errors == None
  {
    d := New(None, None);
    for i := 0 to |data|
      invariant d.attributes == Defaults + ToMap(data[..i])
      invariant d.className == ClassName && d.rulesOverride == Some(RuleSet)
      invariant d.rules == map[] && d.errors == None
    {
      ToMapExtend(data, i);
      OverlayWrite(Defaults, ToMap(data[..i]), data[i].0, data[i].1);
      d.Set(data[i].0, data[i].1);
    }
    assert data[..|data|] == data;
  }

  /** testVirtualSetters: a fresh object reads null for both attributes and
      reports neither as present; after `setFirst('Hello')` the magic read of
      `first` gives 'Hello'. */
  method VirtualSetters(snake: CaseConverter) returns (firstBefore: Value, secondBefore: Value, present: bool, firstAfter: Value)
    requires snake("First") == "first"
    ensures firstBefore == Null && secondBefore == Null && !present
    ensures firstAfter == Str("Hello")
  {
    var dto := New(None, None);
    firstBefore, secondBefore := dto.Get("first"), dto.Get("second");
    present := dto.HasAttribute("first") || dto.HasAttribute("second");
    assert Substr("setFirst", 3) == "First";
    var _ := dto.Call("setFirst", [Str("Hello")], snake);
    firstAfter := dto.Get("first");
  }

  /** testVirtualSettersChain: `setFirst('Hello')->setSecond(123)` both act on
      the one object, and the virtual getters then return both values. */
  method VirtualSettersChain(snake: CaseConverter) returns (chained: CallResult, first: CallResult, second: CallResult)
    requires snake("First") == "first" && snake("Second") == "second"
    ensures chained.Object? && chained.dto.className == ClassName
    ensures first == Returned(Str("Hello")) && second == Returned(Int(123))
  {
    var dto := New(None, None);
    assert Substr("setFirst", 3) == "First" && Substr("setSecond", 3) == "Second";
    assert Substr("getFirst", 3) == "First" && Substr("getSecond", 3) == "Second";
    assert Classify("setFirst") == ToSetter && Classify("setSecond") == ToSetter;
    assert Classify("getFirst") == ToGetter && Classify("getSecond") == ToGetter;
    var self := dto.Call("setFirst", [Str("Hello")], snake);
    assert dto.attributes == map["first" := Str("Hello"), "second" := Null];
    chained := self.dto.Call("setSecond", [Int(123)], snake);
    assert dto.attributes == map["first" := Str("Hello"), "second" := Int(123)];
    first := dto.Call("getFirst", [], snake);
    second := dto.Call("getSecond", [], snake);
  }

  /** testVirtualGetters: the constructor's values come back through the
      virtual getters. */
  method VirtualGetters(snake: CaseConverter) returns (first: CallResult, second: CallResult)
    requires snake("First") == "first" && snake("Second") == "second"
    ensures first == Returned(Str("Hello")) && second == Returned(Int(123))
  {
    var dto := New(Some("Hello"), Some(123));
    assert Substr("getFirst", 3) == "First" && Substr("getSecond", 3) == "Second";
    first := dto.Call("getFirst", [], snake);
    second := dto.Call("getSecond", [], snake);
  }

  /** testMissingMethodException: `helloWorld()` is neither a setter nor a
      getter, so the call raises with the class named in the message. */
  method MissingMethod(snake: CaseConverter) returns (out: CallResult)
    ensures out == Thrown(MethodNotFound(DtoMethodNotFoundException.Message("helloWorld", ClassName)))
  {
    var dto := New(Some("Hello"), Some(123));
    assert "helloWorld"[0] == 'h';
    out := dto.Call("helloWorld", [], snake);
  }

  /** testCreateFromArray: `fromArray(['first' => 'Hello', 'second' => 123])`
      reads back both entries. */
  method CreateFromArray() returns (first: Value, second: Value)
    ensures first == Str("Hello") && second == Int(123)
  {
    var dto := FromArray([("first", Str("Hello")), ("second", Int(123))]);
    first, second := dto.Get("first"), dto.Get("second");
  }

  /** The `rules()` override never reads the stored rule map, so whatever
      `setRules` stores, validation is still asked to check the constant map. */
  method RulesIgnoreSetRules(replacement: map<string, string>) returns (after: map<string, string>)
    ensures after == RuleSet
  {
    var dto := New(None, None);
    var _ := dto.SetRules(replacement);
    after := dto.Rules();
  }

  /** Likewise after `mergeRules` on a fresh object, whose stored rule map is
      empty. */
  method RulesIgnoreMergeRules(extra: map<string, string>) returns (after: map<string, string>)
    requires forall k :: k in extra ==> !NumericKey(k)
    ensures after == RuleSet
  {
    var dto := New(None, None);
    var _ := dto.MergeRules(extra);
    after := dto.Rules();
  }

  /** A failed validation stores the validator's error bag; a later passing
      validation returns true but leaves that bag in place. */
  method StaleErrors(validator: Validator) returns (firstPassed: bool, secondPassed: bool, bag: Option<MessageBag>)
    requires !validator(map["first" := Str("Hello"), "second" := Null], RuleSet).passes
    requires validator(map["first" := Str("Hello"), "second" := Int(123)], RuleSet).passes
    ensures !firstPassed && secondPassed
    ensures bag == Some(validator(map["first" := Str("Hello"), "second" := Null], RuleSet).errors)
  {
    var dto := New(Some("Hello"), None);
    firstPassed := dto.Validate(validator);
    dto.Set("second", Int(123));
    assert dto.attributes == map["first" := Str("Hello"), "second" := Int(123)];
    secondPassed := dto.Validate(validator);
    bag := dto.Errors();
  }
}
