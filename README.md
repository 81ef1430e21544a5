# Data transfer objects, modelled in Dafny

This project models the `DataTransferObject` base class of the `tzurbaev/dto` PHP library. A data transfer object (DTO) has three pieces of state:

- an attribute bag, mapping attribute names to values;
- a rule map, mapping attribute names to rule strings;
- an optional error bag, left by the last failed validation.

The model covers these operations:

- **Magic property access**: `__get`, `__set`, `__isset`.
- **Presence tests**: `hasAttribute` and `hasNotNullAttribute`. Both use PHP's `isset`, so a key stored as null counts as absent.
- **Raw read**: `getAttribute`.
- **Virtual accessors**: `__call` sends a name that starts with `set` to the setter. Otherwise a name that starts with `get` goes to the getter. Any other name raises `DtoMethodNotFoundException`.
- **Bulk construction**: `fromArray`.
- **Rules**: `rules()`, `setRules` and `mergeRules`.
- **Validation**: `validate()` and `errors()`.
- **Test stub**: the concrete class `ExampleData` from the test suite. The methods in its module replay the suite's scenarios on the model.

Files:

- `php.dfy` (module `Php`): PHP values, option and result types, the map an ordered PHP array stands for, and two Laravel string helpers. `Str::startsWith` is a prefix test. `Str::substr` takes a suffix. The file also has the rule by which a PHP array turns a string key into an integer key.
- `method_not_found.dfy` (module `DtoMethodNotFoundException`): the exception's message, and the lemmas showing that the method name can be read back from it.
- `data_transfer_object.dfy` (module `DataTransferObjects`): the class `DataTransferObject`, the `__call` classification and `array_merge`.
- `example_data.dfy` (module `ExampleData`): the `ExampleData` constructor, `fromArray` for that class, and the test scenarios.

Methods that change the object are written as class methods with `modifies this`. Each one states the whole new state: what changed, and that the other fields did not. Reads are functions with `reads this`. PHP's late-bound `rules()` is modelled with a constant field `rulesOverride`. It holds the constant map that a subclass such as `ExampleData` returns from its override, or `None` when the subclass inherits `rules()`. `get_class` is the constant field `className`. `errors()` is the function `Errors`. Its behaviour is stated by the constructor (`None`) and by `Validate`.

Three behaviours of the code a reader may not expect:

- `hasAttribute` uses `isset` (src/DataTransferObject.php:146), so an attribute stored as null is reported absent. Its docblock says it checks whether the attribute "exists" (src/DataTransferObject.php:138). The docblock of `hasNotNullAttribute` says "exists & has not-NULL value" (src/DataTransferObject.php:150). Even so, the two always agree.
- A virtual setter called with no argument stores null (src/DataTransferObject.php:132).
- A passing `validate()` leaves an earlier failure's error bag in place (src/DataTransferObject.php:187-189). `ExampleData.StaleErrors` exhibits this.

## Model

| member | source | states |
|---|---|---|
| `Php.Substr` | src/DataTransferObject.php:117 | `Str::substr($s, 3)`: the part of the name after its first three characters, so prefix plus result gives back the name; empty when the name is shorter |
| `Php.ToMap` | src/DataTransferObject.php:99-105 | the PHP array handed to `fromArray`, given as its entries in iteration order, stands for the map whose keys are exactly the entries' keys, each bound to the value of its last entry |
| `Php.StartsWith` | src/DataTransferObject.php:83-85 | `Str::startsWith` with one needle: true exactly when the needle is non-empty and the haystack is the needle followed by some rest |
| `DtoMethodNotFoundException.Message` | src/Exceptions/DtoMethodNotFoundException.php:17 | the message is 30 characters longer than method and class together, starts with "Method ", ends with " DTO.", and holds the method name at positions 7.. and the class name just before the suffix |
| `DtoMethodNotFoundException.MethodRecovered` | src/Exceptions/DtoMethodNotFoundException.php:17 | for a known class, stripping the fixed prefix and the class-dependent tail gives back the method name |
| `DtoMethodNotFoundException.MessageInjective` | src/Exceptions/DtoMethodNotFoundException.php:17 | two methods of the same class with the same message are the same method |
| `DataTransferObjects.Classify` | src/DataTransferObject.php:83-89 | setter exactly when the first three characters are `set`, getter exactly when they are `get`, not found exactly when the name is shorter than three characters or starts with neither |
| `DataTransferObjects.ArrayMerge` | src/DataTransferObject.php:237 | `array_merge` on string-keyed rule maps: the keys are the union, the second map wins on a shared key, the first map's value stays otherwise, and no numeric key appears |
| `DataTransferObjects.AttributeName` | src/DataTransferObject.php:117 | `Str::snake(Str::substr($method, 3))`: the converter applied to everything after the three-character prefix, and to the empty string when the name has no more than three characters |
| `DataTransferObjects.FirstArgument` | src/DataTransferObject.php:132 | `array_get($arguments, 0)`: the first argument when there is one; null exactly when there is no argument or the first one is null |
| `DataTransferObjects.SameSuffix` | src/DataTransferObject.php:115-135 | `getX` and `setX` address the same attribute `snake(X)` |
| `DataTransferObjects.DataTransferObject.constructor` | src/DataTransferObject.php:16-30 | a new object has an empty bag, an empty rule map and a null error bag |
| `DataTransferObjects.DataTransferObject.Get` | src/DataTransferObject.php:39-46 | `__get` never fails: null for a name never stored (and for one stored as null), the stored value otherwise |
| `DataTransferObjects.DataTransferObject.HasAttribute` | src/DataTransferObject.php:144-147 | true exactly when `__get` gives a non-null value, and only for a stored key |
| `DataTransferObjects.DataTransferObject.HasNotNullAttribute` | src/DataTransferObject.php:156-159 | always equal to `hasAttribute` |
| `DataTransferObjects.DataTransferObject.IsSet` | src/DataTransferObject.php:66-69 | `__isset` is true exactly when `__get` gives a non-null value |
| `DataTransferObjects.DataTransferObject.GetAttribute` | src/DataTransferObject.php:168-171 | succeeds exactly for a stored key, even one stored as null, and then agrees with `__get`; a missing key raises an undefined-index error naming it |
| `DataTransferObjects.DataTransferObject.VirtualGetter` | src/DataTransferObject.php:115-120 | the raw read of `snake(name[3..])`: succeeds exactly when that key is stored, and then gives the value `__get` gives |
| `DataTransferObjects.DataTransferObject.Rules` | src/DataTransferObject.php:209-212 | the subclass's constant rule map when it overrides `rules()`, the stored rule map otherwise |
| `DataTransferObjects.DataTransferObject.Errors` | src/DataTransferObject.php:199-202 | `errors()` returns the error-bag field; its value is fixed by the constructor's `errors == None` and by `Validate`'s two clauses on `Errors()`: the validator's bag after a failure, the previous value after a pass |
| `DataTransferObjects.DataTransferObject.Set` | src/DataTransferObject.php:54-57 | the bag becomes the old bag with `name` bound to `value`; rules and errors unchanged; `__get(name)` then returns `value` and `getAttribute(name)` succeeds with it; `hasAttribute(name)` holds exactly when `value` is not null; every other name reads as before |
| `DataTransferObjects.DataTransferObject.VirtualSetter` | src/DataTransferObject.php:128-135 | stores the first argument (null if none) under `snake(name[3..])` and nothing else, returns the object itself, and the getter with the same suffix then reads the stored value |
| `DataTransferObjects.DataTransferObject.Call` | src/DataTransferObject.php:81-90 | a `set` name acts as the virtual setter and returns the object; otherwise a `get` name returns the getter's value or raises its undefined-index error; any other name raises `MethodNotFound` with the exception's message; only a setter changes the bag, and rules and errors never change |
| `DataTransferObjects.DataTransferObject.SetRules` | src/DataTransferObject.php:221-226 | the rule map becomes exactly the argument; returns the object; attributes and errors unchanged; `rules()` gives the new map unless the subclass overrides it |
| `DataTransferObjects.DataTransferObject.MergeRules` | src/DataTransferObject.php:235-240 | the rule keys become the old keys plus the new ones, the new value winning on a shared key and the old value staying otherwise; returns the object; attributes and errors unchanged |
| `DataTransferObjects.DataTransferObject.Validate` | src/DataTransferObject.php:178-192 | returns the validator's verdict on the bag under `rules()`; on failure `errors()` becomes the validator's bag; on success `errors()` keeps its old value; attributes and rules unchanged |
| `ExampleData.New` | tests/Tests/Stubs/ExampleData.php:26-30 | a fresh `ExampleData` whose bag holds exactly `first` and `second` (null when omitted), with `hasAttribute` true exactly for the ones given; the rule map is empty and the error bag null |
| `ExampleData.FromArray` | src/DataTransferObject.php:99-108 | a fresh `ExampleData` after one `__set` per entry, in order: its bag is the constructor's nulls overlaid with the array's map, so each key of the array reads back its value and a key the array lacks keeps the constructor's null; the rule map is empty and the error bag null |
| `ExampleData.VirtualSetters` | tests/DataTransferObjectsTest.php:11-20 | a default object reads null for both attributes and reports neither present; after `setFirst('Hello')`, `first` reads 'Hello' |
| `ExampleData.VirtualSettersChain` | tests/DataTransferObjectsTest.php:22-30 | `setFirst('Hello')->setSecond(123)` chains on an `ExampleData` object, and `getFirst()` / `getSecond()` then return 'Hello' and 123 |
| `ExampleData.VirtualGetters` | tests/DataTransferObjectsTest.php:32-38 | after construction with ('Hello', 123), `getFirst()` returns 'Hello' and `getSecond()` returns 123 |
| `ExampleData.MissingMethod` | tests/DataTransferObjectsTest.php:40-46 | `helloWorld()` raises `DtoMethodNotFoundException` whose message names `helloWorld` and the class `Tests\Stubs\ExampleData` |
| `ExampleData.CreateFromArray` | tests/DataTransferObjectsTest.php:48-60 | `fromArray(['first' => 'Hello', 'second' => 123])` reads back 'Hello' and 123 |
| `ExampleData.RulesIgnoreSetRules` | tests/Tests/Stubs/ExampleData.php:35-41 | for every map given to `setRules`, `rules()` still returns `first => required\|string, second => required\|integer` |
| `ExampleData.RulesIgnoreMergeRules` | tests/Tests/Stubs/ExampleData.php:35-41 | after `mergeRules` with any non-numeric keys, `rules()` still returns the same constant map |
| `ExampleData.StaleErrors` | src/DataTransferObject.php:185-191 | if validation fails and then, after `second` is set, passes, the second call returns true while `errors()` still holds the first failure's bag |

## Left out

- The validator (Laravel's `Validator` facade) is a function parameter of `Validate`. It maps the bag and the rule map to a verdict and an error bag. Its rule vocabulary is not modelled, and the `MessageBag` is an opaque map of messages.
- `Str::snake` is a function parameter (`CaseConverter`) and stays uninterpreted. The scenarios state the two conversions they rely on as preconditions: `First` to `first` and `Second` to `second`.
- `DtoValidationException` (src/Exceptions/DtoValidationException.php) is not part of this model. Its message comes from the foreign `MessageBag`.
- DataTransferObjects.DataTransferObject.GetAttribute: PHP's undefined-index notice is modelled as a raised error (`UndefinedIndex`), as under an error handler that turns notices into exceptions. Without such a handler, PHP would return null after the notice.
- DataTransferObjects.DataTransferObject.Call, `DataTransferObjects.DataTransferObject.VirtualSetter` and `ExampleData.FromArray` require the written name to reach `__set` (`ReachesBag`). Inside the class, `$this->{$name}` with `attributes`, `rules` or `errors` assigns the protected field itself. A name that starts with a NUL byte is refused by PHP. Neither case is modelled. `__set` called from outside has no such restriction.
- DataTransferObjects.DataTransferObject.MergeRules requires every key of both rule maps to be non-numeric. `array_merge` renumbers integer keys, and PHP turns canonical decimal strings into integer keys, so numeric keys are excluded. The exclusion is a little wider than PHP's, because it also covers decimal strings beyond the 64-bit range.
- The key order of the attribute bag and of the rule maps is not modelled, because Dafny maps are unordered. It would only matter to the order in which the validator reports errors. The order in which `fromArray` writes is modelled: its input is a sequence of entries.
- `fromArray` uses `new static`. It is modelled for `ExampleData`, the only concrete class in the repository. It builds the object with `ExampleData`'s constructor and its default arguments.
- `__call` is modelled for any name it is given, as if called directly. PHP reaches it implicitly only for names that are not accessible methods. PHP method names are case-insensitive, so `SetRules(...)` still calls `setRules`.
- A `rules()` override whose result depends on the object's state is not modelled. Only constant overrides like `ExampleData`'s are.
- PHP's type juggling of the `ExampleData` constructor parameters, such as an integer passed for `$first`, is not modelled. The constructor takes an optional string and an optional integer.
- Floats, arrays and objects stored as attribute values are opaque values (`Opaque`), compared by a tag and never inspected.
- ExampleData.MissingMethod states the message as `Message("helloWorld", "Tests\Stubs\ExampleData")`, not as a spelled-out string literal. The test it mirrors checks only the exception class.
