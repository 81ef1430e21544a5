/** The abstract `DataTransferObject`: an attribute bag, a rule map and an
    optional error bag, with magic property access, virtual `getX`/`setX`
    methods and validation delegated to an external validator. */
module DataTransferObjects {
  import opened Php
  import DtoMethodNotFoundException

  /** The validator's error bag (Laravel's `MessageBag`): messages per field.
      The model only stores and returns it. */
  datatype MessageBag = MessageBag(messages: map<string, seq<string>>)

  /** What the validator says about an attribute bag under a rule map. */
  datatype Verdict = Verdict(passes: bool, errors: MessageBag)

  /** The external validator (`Validator::make(...)->passes()` and `->errors()`). */
  type Validator = (map<string, Value>, map<string, string>) -> Verdict

  /** The external camelCase-to-snake_case converter (`Str::snake`). */
  type CaseConverter = string -> string

  /** What a DTO operation can raise. `UndefinedIndex` is PHP's undefined-index
      notice on a raw read of a missing attribute. */
  datatype DtoError = MethodNotFound(message: string) | UndefinedIndex(attribute: string)

  /** Where `__call` sends a method name. */
  datatype Dispatch = ToSetter | ToGetter | NotFound

  /** What `__call` hands back: the object itself (setters chain), a value
      (getters), or an exception. */
  datatype CallResult = Object(dto: DataTransferObject) | Returned(value: Value) | Thrown(error: DtoError)

  /** The classification at the head of `__call`: the `set` prefix is checked
      before `get`, and anything else is not a method of the DTO. */
  function Classify(name: string): (d: Dispatch)
    ensures d == ToSetter <==> |name| >= 3 && name[..3] == "set"
    ensures d == ToGetter <==> |name| >= 3 && name[..3] == "get"
    ensures d == NotFound <==> |name| < 3 || (name[..3] != "set" && name[..3] != "get")
  {
    if StartsWith(name, "set") then ToSetter
    else if StartsWith(name, "get") then ToGetter
    else NotFound
  }

  /** The attribute a virtual accessor addresses: the snake_case form of what
      follows its three-letter prefix. */
  function AttributeName(name: string, snake: CaseConverter): (a: string)
    ensures |name| >= 3 ==> a == snake(name[3..])
    ensures |name| <= 3 ==> a == snake("")
  {
    snake(Substr(name, 3))
  }

  /** `array_get($arguments, 0)`: the first argument, null when there is none. */
  function FirstArgument(arguments: seq<Value>): (v: Value)
    ensures |arguments| > 0 ==> v == arguments[0]
    ensures v == Null <==> |arguments| == 0 || arguments[0] == Null
  {
    if |arguments| > 0 then arguments[0] else Null
  }

  /** Names that `$this->{$name} = ...` inside the class sends to `__set`:
      every name except the three protected fields (which PHP assigns directly
      from inside the class) and names PHP refuses because they start with a
      NUL byte. */
  predicate ReachesBag(name: string)
  {
    name != "attributes" && name != "rules" && name != "errors" &&
    !(|name| > 0 && name[0] == '\0')
  }

  /** `array_merge` on two arrays with string keys only: the union of the
      keys, the second array winning on a shared key. */
  function ArrayMerge(first: map<string, string>, second: map<string, string>): (r: map<string, string>)
    requires forall k :: k in first ==> !NumericKey(k)
    requires forall k :: k in second ==> !NumericKey(k)
    ensures r.Keys == first.Keys + second.Keys
    ensures forall k :: k in second ==> r[k] == second[k]
    ensures forall k :: k in first && k !in second ==> r[k] == first[k]
    ensures forall k :: k in r ==> !NumericKey(k)
  {
    first + second
  }

  class DataTransferObject {
    /** The attribute bag. */
    var attributes: map<string, Value>
    /** The rule map kept by `setRules` / `mergeRules`. */
    var rules: map<string, string>
    /** The error bag of the last failed validation; `None` is PHP's null. */
    var errors: Option<MessageBag>

    /** `get_class($this)`: the concrete class of the object. */
    const className: string
    /** The constant rule map a subclass returns from its own `rules()`, or
        `None` when the subclass inherits `rules()`. */
    const rulesOverride: Option<map<string, string>>

    /** A new instance of a concrete subclass, before its own constructor body
        runs: every field at its declared default. */
    constructor (className: string, rulesOverride: Option<map<string, string>>)
      ensures this.className == className && this.rulesOverride == rulesOverride
      ensures attributes == map[] && rules == map[] && errors == None
    {
      this.className := className;
      this.rulesOverride := rulesOverride;
      attributes := map[];
      rules := map[];
      errors := None;
    }

    /** `__get`: null-safe read. An attribute that was never stored and one
        stored as null both read as null. */
    function Get(name: string): (v: Value)
      reads this
      ensures name !in attributes ==> v == Null
      ensures name in attributes ==> v == attributes[name]
    {
      if !(name in attributes && attributes[name] != Null) then Null else attributes[name]
    }

    /** `hasAttribute`: PHP's `isset` on the bag, so a key stored as null does
        not count. */
    function HasAttribute(name: string): (b: bool)
      reads this
      ensures b <==> Get(name) != Null
      ensures b ==> name in attributes
    {
      name in attributes && attributes[name] != Null
    }

    /** `hasNotNullAttribute`: its extra null test is already implied by
        `hasAttribute`, so the two always agree. */
    function HasNotNullAttribute(name: string): (b: bool)
      reads this
      ensures b <==> HasAttribute(name)
    {
      HasAttribute(name) && attributes[name] != Null
    }

    /** `__isset`: `isset($dto->name)` from outside the class. */
    function IsSet(name: string): (b: bool)
      reads this
      ensures b <==> Get(name) != Null
    {
      HasAttribute(name)
    }

    /** `getAttribute`: raw read of the bag, which raises PHP's undefined-index
        notice for a key that was never stored (but not for one stored as
        null). */
    function GetAttribute(attribute: string): (r: Result<Value, DtoError>)
      reads this
      ensures r.Ok? <==> attribute in attributes
      ensures r.Ok? ==> r.value == Get(attribute)
      ensures r.Err? ==> r.error == UndefinedIndex(attribute)
    {
      if attribute in attributes then Ok(attributes[attribute]) else Err(UndefinedIndex(attribute))
    }

    /** `virtualGetter`: the raw read of the attribute the name addresses. */
    function VirtualGetter(name: string, snake: CaseConverter): (r: Result<Value, DtoError>)
      reads this
      ensures r.Ok? <==> AttributeName(name, snake) in attributes
      ensures r.Ok? ==> r.value == Get(AttributeName(name, snake))
      ensures r.Err? ==> r.error == UndefinedIndex(AttributeName(name, snake))
    {
      GetAttribute(AttributeName(name, snake))
    }

    /** `rules()`: the subclass's own rule map when it overrides `rules()`,
        the stored one otherwise. */
    function Rules(): (r: map<string, string>)
      reads this
      ensures rulesOverride.None? ==> r == rules
      ensures rulesOverride.Some? ==> r == rulesOverride.value
    {
      match rulesOverride
      case Some(fixed) => fixed
      case None => rules
    }

    /** `errors()`: the error bag of the last failed validation, or null. */
    function Errors(): Option<MessageBag>
      reads this
    {
      errors
    }

    /** `__set`: store `value` under `name`; nothing else changes. */
    method Set(name: string, value: Value)
      modifies this
      ensures attributes == old(attributes)[name := value]
      ensures rules == old(rules) && errors == old(errors)
      ensures Get(name) == value
      ensures HasAttribute(name) <==> value != Null
      ensures GetAttribute(name) == Ok(value)
      ensures forall n :: n != name ==> Get(n) == old(Get(n)) && HasAttribute(n) == old(HasAttribute(n))
    {
      attributes := attributes[name := value];
    }

    /** `virtualSetter`: store the first argument (null if none) under the
        attribute the name addresses and return the object itself. A getter
        with the same suffix then reads the stored value back. */
    method VirtualSetter(name: string, arguments: seq<Value>, snake: CaseConverter) returns (self: DataTransferObject)
      requires ReachesBag(AttributeName(name, snake))
      modifies this
      ensures self == this
      ensures attributes == old(attributes)[AttributeName(name, snake) := FirstArgument(arguments)]
      ensures rules == old(rules) && errors == old(errors)
      ensures VirtualGetter("get" + Substr(name, 3), snake) == Ok(FirstArgument(arguments))
    {
      var attribute := AttributeName(name, snake);
      Set(attribute, FirstArgument(arguments));
      SameSuffix(name, snake);
      self := this;
    }

    /** `__call`: a name starting with `set` is a virtual setter, otherwise one
        starting with `get` is a virtual getter, and any other name raises
        `DtoMethodNotFoundException` without touching the object. */
    method Call(name: string, arguments: seq<Value>, snake: CaseConverter) returns (out: CallResult)
      requires Classify(name) == ToSetter ==> ReachesBag(AttributeName(name, snake))
      modifies this
      ensures rules == old(rules) && errors == old(errors)
      ensures Classify(name) == ToSetter ==>
                out == Object(this) &&
                attributes == old(attributes)[AttributeName(name, snake) := FirstArgument(arguments)]
      ensures Classify(name) != ToSetter ==> attributes == old(attributes)
      ensures Classify(name) == ToGetter ==>
                out == match VirtualGetter(name, snake)
                       case Ok(v) => Returned(v)
                       case Err(e) => Thrown(e)
      ensures Classify(name) == NotFound ==>
                out == Thrown(MethodNotFound(DtoMethodNotFoundException.Message(name, className)))
    {
      if StartsWith(name, "set") {
        var self := VirtualSetter(name, arguments, snake);
        out := Object(self);
      } else if StartsWith(name, "get") {
        match VirtualGetter(name, snake)
        case Ok(v) => out := Returned(v);
        case Err(e) => out := Thrown(e);
      } else {
        out := Thrown(MethodNotFound(DtoMethodNotFoundException.Message(name, className)));
      }
    }

    /** `setRules`: replace the stored rule map and return the object. */
    method SetRules(newRules: map<string, string>) returns (self: DataTransferObject)
      modifies this
      ensures self == this
      ensures rules == newRules
      ensures attributes == old(attributes) && errors == old(errors)
      ensures rulesOverride.None? ==> Rules() == newRules
    {
      rules := newRules;
      self := this;
    }

    /** `mergeRules`: overlay `moreRules` on the stored rule map, the new rules
        winning on a shared attribute, and return the object. */
    method MergeRules(moreRules: map<string, string>) returns (self: DataTransferObject)
      requires forall k :: k in rules ==> !NumericKey(k)
      requires forall k :: k in moreRules ==> !NumericKey(k)
      modifies this
      ensures self == this
      ensures rules == ArrayMerge(old(rules), moreRules)
      ensures rules.Keys == old(rules).Keys + moreRules.Keys
      ensures forall k :: k in moreRules ==> rules[k] == moreRules[k]
      ensures forall k :: k in old(rules) && k !in moreRules ==> rules[k] == old(rules)[k]
      ensures attributes == old(attributes) && errors == old(errors)
    {
      rules := ArrayMerge(rules, moreRules);
      self := this;
    }

    /** `validate`: ask the validator about the bag under `rules()`. Only a
        failure stores the validator's error bag; a pass leaves whatever bag an
        earlier failure stored. */
    method Validate(validator: Validator) returns (passed: bool)
      modifies this
      ensures attributes == old(attributes) && rules == old(rules)
      ensures passed == validator(attributes, Rules()).passes
      ensures !passed ==> Errors() == Some(validator(attributes, Rules()).errors)
      ensures passed ==> Errors() == old(Errors())
    {
      var verdict := validator(attributes, Rules());
      passed := verdict.passes;
      if !passed {
        errors := Some(verdict.errors);
      }
    }
  }

  /** A getter and a setter with the same suffix address the same attribute. */
  lemma SameSuffix(name: string, snake: CaseConverter)
    ensures AttributeName("get" + Substr(name, 3), snake) == AttributeName(name, snake)
  {
    var suffix := Substr(name, 3);
    assert Substr("get" + suffix, 3) == suffix by {
      assert ("get" + suffix)[3..] == suffix;
    }
  }
}
