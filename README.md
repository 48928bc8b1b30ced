# DTCD-LogSystem in Dafny

This project models the executable core of the DTCD log system plugin. The
core has two parts.

- **The size estimator** `sizeof` (module `SizeOf`, file `sizeof.dfy`)
  gives an approximate byte cost for any JSON-shaped value:
  - `undefined` and `null` cost 0;
  - a boolean costs 4;
  - a number costs 8;
  - a string costs twice its length;
  - an object or array costs the sum, over its own keys, of the key's cost
    plus the cost of the value stored under that key.

  Values are the datatype `Value`. An object is the sequence of its own
  properties in `Object.keys` order. An array is the sequence of its elements,
  and `Object.keys` gives it the decimal index strings `"0"`, `"1"`, and so
  on (the function `Decimal`). The `reduce` over the keys is modelled as the
  left fold it is: `FieldsCost` for objects, `ElementsCost` for arrays.

- **The log buffer**, class `LogSystem` (module `LogSystem`, file
  `logsystem.dfy`). Its `logs` field is a sequence of `Record`s and starts
  empty. `Log` checks that `guid`, `pluginName` and `message` are all
  non-empty strings. If they are, it appends the record
  `{timestamps, plugin, message, guid}` and answers true. Otherwise it
  answers false and leaves the buffer unchanged. The arguments are arbitrary
  JavaScript values (`SizeOf.Value`), so calls with numbers, arrays or
  objects are modelled too. The clock reading `Date.now()` is passed in as
  the parameter `time`. The two parts meet in `BufferValue`: this is the
  `logs` array as a JavaScript value, the way the plugin's tests measure it
  with `sizeof(ls.logs)`.

## Model

| member | source | states |
|---|---|---|
| SizeOf.Sizeof | DTCD-LogSystem/src/utils/sizeof.js:1-11 | the cost of every value is non-negative, and a string costs twice its length |
| SizeOf.FieldsCost | DTCD-LogSystem/src/utils/sizeof.js:8 | the `reduce` over an object's keys is non-negative and 0 for an object with no keys |
| SizeOf.ElementsCost | DTCD-LogSystem/src/utils/sizeof.js:8 | the `reduce` over an array's index keys is non-negative and 0 for an empty array |
| SizeOf.ScalarCosts | DTCD-LogSystem/src/utils/sizeof.js:4-8 | undefined and null cost 0, a boolean 4, a number 8, an empty object or array 0 |
| SizeOf.StringCost | DTCD-LogSystem/src/utils/sizeof.js:7 | a string costs 2 × its length, so the cost is even and adds up over concatenation |
| SizeOf.ObjAppend | DTCD-LogSystem/src/utils/sizeof.js:8 | adding a key `k` with value `v` raises an object's cost by exactly 2·\|k\| + sizeof(v) |
| SizeOf.ArrAppend | DTCD-LogSystem/src/utils/sizeof.js:8 | pushing `x` at index `n` raises an array's cost by exactly 2·\|decimal(n)\| + sizeof(x) |
| SizeOf.FieldsCostConcat | DTCD-LogSystem/src/utils/sizeof.js:8 | the sum over two runs of keys is the sum of the two sums |
| SizeOf.ObjOrderIndependent | DTCD-LogSystem/src/utils/sizeof.js:8 | any two orderings of the same properties give the same cost, so the cost does not depend on key order |
| SizeOf.ArrayAsObject | DTCD-LogSystem/src/utils/sizeof.js:8 | an array costs the same as the object with keys "0", "1", … and the same values |
| SizeOf.IndexedKeysDistinct | DTCD-LogSystem/src/utils/sizeof.js:8 | the index keys of an array are pairwise distinct, so its indexed view is a well-formed object |
| SizeOf.Decimal | DTCD-LogSystem/src/utils/sizeof.js:8 | an index key is a non-empty string of digits, one digit exactly for indices below 10, no leading zero |
| SizeOf.DecimalRoundTrip | DTCD-LogSystem/src/utils/sizeof.js:8 | reading an index key back as digits gives the index |
| SizeOf.DecimalInjective | DTCD-LogSystem/src/utils/sizeof.js:8 | distinct indices have distinct keys |
| SizeOf.Lookup | DTCD-LogSystem/src/utils/sizeof.js:8 | the property access `i[k]` finds a value exactly when some property has key `k`, and the value it finds is stored under `k` |
| SizeOf.LookupDistinct | DTCD-LogSystem/src/utils/sizeof.js:8 | in an object with distinct keys, looking up a key finds the value stored with it |
| LogSystem.RecordValue | DTCD-LogSystem/src/LogSystem.js:27-32 | a record is an object with exactly four distinct keys, and `timestamps`, `plugin`, `message` and `guid` hold the time and the three strings |
| LogSystem.RecordCost | DTCD-LogSystem/src/LogSystem.js:27-32 | a record costs 62 plus 2 per character of its plugin name, message and guid |
| LogSystem.BufferCostAppend | DTCD-LogSystem/tests/LogSystem.spec.js:174 | appending a record raises `sizeof(logs)` by the cost of its index key plus the record's cost |
| LogSystem.LogSystem.GetRegistrationMeta | DTCD-LogSystem/src/LogSystem.js:4-10 | the descriptor has exactly the keys `type`, `title` and `name`, holding 'core', 'Система логирования' and 'LogSystem'; it has no `init` key |
| LogSystem.LogSystem.constructor | DTCD-LogSystem/src/LogSystem.js:12-15 | a new log system has an empty buffer |
| LogSystem.LogSystem.Log | DTCD-LogSystem/src/LogSystem.js:17-35 | the answer is true iff all three arguments are non-empty strings; on true the buffer is the old buffer plus the record {time, pluginName, message, guid}, so earlier records keep their place and order, and its cost grows by the exact amount; on false the buffer is unchanged |
| LogSystem.LogScenario | LogSystem/tests/LogSystem.spec.js:27-48 | a valid call is accepted and becomes the only record; a call with empty strings and a call with non-string arguments are refused and leave it alone; that one-record buffer costs 108 |

## Left out

- `uploadLogs` (DTCD-LogSystem/src/LogSystem.js:36-38): it only prints a placeholder to the console and has no logic.
- The `SystemPlugin` base class from the SDK (DTCD-LogSystem/src/LogSystem.js:1): its code is not part of this model, so `LogSystem` stands alone.
- `Date.now()`: a clock read, so the timestamp is the parameter `time` of `Log`.
- Values `sizeof` does not handle: functions, symbols and bigints make the `typeof` dispatch find no entry, and the call throws. `Value` holds only JSON-shaped values.
- Number semantics: a number only ever costs 8, so `Num` carries an integer (the timestamps are integer milliseconds) and floating point is not modelled. The sums are unbounded integers; JavaScript adds them as doubles, which is exact up to 2^53.
- String length: JavaScript's `length` counts UTF-16 code units. Dafny's `|s|` counts Unicode scalar values, so the two differ only for characters outside the Basic Multilingual Plane.
- Arrays are dense: holes and extra non-index properties on an array are not modelled. An object's properties are taken in `Object.keys` order, which `ObjOrderIndependent` shows does not affect the cost.
- The larger log-system design (severity levels and gating, `fatal/error/warn/info/debug`, `invokeOnLevel`, `init` with remote and local configuration, size-bounded admission with overflow flush, the flush timer, and the configuration setters) is not in the code of `DTCD-LogSystem/src/LogSystem.js`. Only DTCD-LogSystem/tests/LogSystem.spec.js exercises it, so it is not modelled. This model follows the code. One case of this: that test file expects the registration descriptor to hold `init: true`, but the code returns no `init` key.
