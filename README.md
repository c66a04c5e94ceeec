# Patient records store, in Dafny

This project models `PatientRecords`, an in-memory store of patient records
keyed by patient id. Each record holds a name, an age, a weight in kilograms
and a height in metres. The store offers four things:

- checked insertion (`add_record`), where the previous record under the same id is overwritten;
- a partial update (`update_record`), which replaces only the fields supplied;
- lookup (`get_record`);
- two averages over all records: age, and body mass index (weight / height²).

Modules:

- `Wrappers` (`wrappers.dfy`) holds `Option`, `Result` and `Outcome`. They stand for
  Python's `None` and for the `ValueError` that the source raises.
- `Statistics` (`statistics.dfy`) holds the reductions behind the averages: `Sum`,
  `Mean`, `Min` and `Max` over `seq<real>`. It proves that the mean lies between
  the minimum and the maximum, and that the sum and the mean do not depend on
  element order.
- `PatientRecords` (`patient_records.dfy`) holds the class, its record type and
  validation. The class has two fields:
  - `records: map<string, Record>`, the source's dictionary;
  - `order: seq<string>`, its keys in insertion order (the order a Python dictionary
    iterates in). `Valid()` says `order` lists each stored id exactly once.

  `Add` and `Update` change these fields in place. Their postconditions state the
  whole new state. `Get` is a function that reads the state. `AverageAge`,
  `TotalBmi` and `AverageBmi` are loops proved against `Mean`/`Sum` of the stored
  values.
- `Scenario` (`scenario.dfy`) holds client methods that use only the contracts:
  - Alice and Bob average 31.5, and a later age update leaves the name unchanged;
  - ages 30, 40 and 50 average 40;
  - a rejected add leaves the store empty;
  - the BMI of one 70 kg, 1.75 m record is 70 / 1.75²;
  - an update can store a zero height, after which the BMI average fails.

Errors are an enum rather than exceptions:
- `Invalid(field)` names the first field that validation rejected;
- `NotFound` is an absent id on update or lookup;
- `DivisionByZero` is the `ZeroDivisionError` that `calculate_average_bmi` raises
  when a stored height is zero.

A height of zero can only be stored through `update_record`, because the update
path does not validate. The system's own description says that every stored
record has passed validation. The code does not keep that promise, and the model
follows the code: `Update` keeps `AllValid()` only when each supplied value
passes its check. A stored zero height then makes the BMI average fail.

## Model

| member | source | states |
|---|---|---|
| `PatientRecords.Validate` | lessons-solved/patient-records-project/src/patient_records.py:79-102 | Succeeds iff the id and name are non-empty and the age, weight and height are positive. On failure, the reported field is rejected and every field checked before it (order id, name, age, weight, height) is accepted. |
| `PatientRecords.PatientRecords.constructor` | lessons-solved/patient-records-project/src/patient_records.py:10-12 | A new store is empty, with no ids in its order. It trivially satisfies the all-records-valid invariant. |
| `PatientRecords.PatientRecords.Get` | lessons-solved/patient-records-project/src/patient_records.py:62-77 | Succeeds iff the id is stored, and then returns exactly the stored record. An absent id gives `NotFound`. It reads the store and changes nothing. |
| `PatientRecords.PatientRecords.Add` | lessons-solved/patient-records-project/src/patient_records.py:14-34 | Returns the validation verdict. On failure, store and order are unchanged. On success, the id maps to exactly the supplied fields (so `Get(id)` returns them), every other id keeps its record, and a new id is appended to the order while an existing one keeps its place. It preserves the all-records-valid invariant. |
| `PatientRecords.PatientRecords.Update` | lessons-solved/patient-records-project/src/patient_records.py:36-60 | Fails with `NotFound` iff the id is absent, leaving the store unchanged. Otherwise each supplied field is replaced verbatim and each omitted field keeps its value. Other ids, the key set and the order stay unchanged. An update with every field omitted is a no-op. All records stay valid only when the supplied values pass their checks. |
| `PatientRecords.PatientRecords.AverageAge` | lessons-solved/patient-records-project/src/patient_records.py:104-114 | `None` iff the store is empty. Otherwise it returns the mean of the stored ages, which lies between the smallest and the largest stored age. |
| `PatientRecords.PatientRecords.TotalBmi` | lessons-solved/patient-records-project/src/patient_records.py:125 | Fails with `DivisionByZero` iff some stored height is zero. Otherwise it returns the sum of weight / height² over the stored records. |
| `PatientRecords.PatientRecords.AverageBmi` | lessons-solved/patient-records-project/src/patient_records.py:116-126 | `None` on an empty store. `DivisionByZero` when a stored height is zero. Otherwise the unweighted mean of the per-record BMIs, which lies between the smallest and the largest BMI. It never fails on a store whose records all pass validation. |
| `PatientRecords.SumBmisStep` | lessons-solved/patient-records-project/src/patient_records.py:125 | Extending the summed prefix by one record adds exactly that record's weight / height². |
| `Statistics.Mean` | lessons-solved/patient-records-project/src/patient_records.py:114 | The mean times the number of elements equals the sum. |
| `Statistics.Min` | lessons-solved/patient-records-project/src/patient_records.py:113-114 | An element of the sequence no greater than any element. |
| `Statistics.Max` | lessons-solved/patient-records-project/src/patient_records.py:113-114 | An element of the sequence no smaller than any element. |
| `Statistics.SumBetween` | lessons-solved/patient-records-project/src/patient_records.py:113 | Bounds on every element bound the sum by the count times those bounds. |
| `Statistics.MeanWithin` | lessons-solved/patient-records-project/src/patient_records.py:113-114 | Bounds on every element bound the mean. |
| `Statistics.MeanBetween` | lessons-solved/patient-records-project/src/patient_records.py:113-114 | The mean lies between the minimum and the maximum. |
| `Statistics.SumAppend` | lessons-solved/patient-records-project/src/patient_records.py:113 | The sum of a concatenation is the sum of the sums. |
| `Statistics.SumRemove` | lessons-solved/patient-records-project/src/patient_records.py:113 | Removing one element from a sequence subtracts exactly that element from the sum. |
| `Statistics.SumPermutation` | lessons-solved/patient-records-project/src/patient_records.py:113 | Sequences with the same multiset of elements have the same sum, so the order in which the dictionary yields its values does not matter. |
| `Statistics.MeanPermutation` | lessons-solved/patient-records-project/src/patient_records.py:125-126 | Sequences with the same multiset of elements have the same mean. |

## Left out

- Python's dynamic type checks (`isinstance`) in validation are replaced by static types. That includes the quirk that a `bool` passes as an `int`. Only the emptiness and positivity checks remain.
- Floating point: weights, heights, BMIs and averages are Dafny `real`s, so the model has no IEEE-754 rounding.
- `TotalBmi`: the source divides by `height ** 2` and fails when that square is zero. The model tests `height == 0.0` instead, which over the reals is the same condition.
- Aliasing: `get_record` returns the live inner dictionary, so a caller could change the store through it. `Get` returns a value.
- Error message texts are left out; an error enum names the failing check instead.
- Iteration order: the loops walk `order`, which matches Python's insertion order. Order independence is proved at the level of values (`SumPermutation`, `MeanPermutation`): any rearrangement of the ages or BMIs gives the same sum and mean. It is not proved for rearrangements of the keys.
- `validate_patient_data` is a method of the Python class but reads no state, so it is the module-level function `Validate`.
- The test file `tests/test_patient_records.py` calls an API that this class does not have (a three-argument `add_record`, `get_all_records`, `get_average_age`), so it is not modelled. Its ages 30, 40 and 50 with average 40 appear in `Scenario.ThreeAges`.
