/**
 * An in-memory store of patient records keyed by patient id, with checked
 * insertion, partial update, lookup and two averages (age and body mass index).
 */
module PatientRecords {
  import opened Wrappers
  import opened Statistics

  /** The attributes stored for one patient: weight in kilograms, height in metres. */
  datatype Record = Record(name: string, age: int, weight: real, height: real)

  /** The five inputs that validation checks, in the order it checks them. */
  datatype Field = PatientId | Name | Age | Weight | Height

  /** Why an operation failed. */
  datatype Error =
    | Invalid(field: Field)   // a field failed validation: the source's ValueError on add
    | NotFound                // the id is not in the store: the source's ValueError on update and get
    | DivisionByZero          // a stored height of zero: the source's ZeroDivisionError in the BMI average

  /** The position of a field's check in the validation sequence. */
  function Rank(f: Field): nat
  {
    match f
    case PatientId => 0
    case Name => 1
    case Age => 2
    case Weight => 3
    case Height => 4
  }

  /** Whether the check for field `f` accepts the given inputs. */
  predicate Accepts(f: Field, id: string, name: string, age: int, weight: real, height: real)
  {
    match f
    case PatientId => id != ""
    case Name => name != ""
    case Age => age > 0
    case Weight => weight > 0.0
    case Height => height > 0.0
  }

  /**
   * The checks run before a record is added. Success exactly when every field
   * is acceptable; otherwise the reported field is the first one, in check
   * order, that is rejected.
   */
  function Validate(id: string, name: string, age: int, weight: real, height: real): (r: Outcome<Error>)
    ensures r.Pass? <==> id != "" && name != "" && age > 0 && weight > 0.0 && height > 0.0
    ensures r.Fail? ==> r.error.Invalid? && !Accepts(r.error.field, id, name, age, weight, height)
    ensures r.Fail? ==> forall f: Field :: Rank(f) < Rank(r.error.field) ==> Accepts(f, id, name, age, weight, height)
  {
    if id == "" then Fail(Invalid(PatientId))
    else if name == "" then Fail(Invalid(Name))
    else if age <= 0 then Fail(Invalid(Age))
    else if weight <= 0.0 then Fail(Invalid(Weight))
    else if height <= 0.0 then Fail(Invalid(Height))
    else Pass
  }

  /** A record that `Validate` accepts under the id `id`. */
  predicate ValidRecord(id: string, rec: Record)
  {
    Validate(id, rec.name, rec.age, rec.weight, rec.height).Pass?
  }

  /** The body mass index of one record: weight over height squared. */
  function Bmi(rec: Record): real
    requires rec.height != 0.0
  {
    rec.weight / (rec.height * rec.height)
  }

  /** The records stored under `keys`, in that order. */
  function ValuesOf(keys: seq<string>, records: map<string, Record>): (rs: seq<Record>)
    requires forall i :: 0 <= i < |keys| ==> keys[i] in records
    ensures |rs| == |keys|
    ensures forall i :: 0 <= i < |keys| ==> rs[i] == records[keys[i]]
  {
    seq(|keys|, i requires 0 <= i < |keys| => records[keys[i]])
  }

  /** The ages of `rs`, as reals, in order. */
  function Ages(rs: seq<Record>): (xs: seq<real>)
    ensures |xs| == |rs|
    ensures forall i :: 0 <= i < |rs| ==> xs[i] == rs[i].age as real
  {
    seq(|rs|, i requires 0 <= i < |rs| => rs[i].age as real)
  }

  /** The body mass indices of `rs`, in order. */
  function Bmis(rs: seq<Record>): (xs: seq<real>)
    requires forall i :: 0 <= i < |rs| ==> rs[i].height != 0.0
    ensures |xs| == |rs|
    ensures forall i :: 0 <= i < |rs| ==> xs[i] == Bmi(rs[i])
  {
    seq(|rs|, i requires 0 <= i < |rs| => Bmi(rs[i]))
  }

  /** A store of patient records, the source's `PatientRecords` class. */
  class PatientRecords {
    /** Patient id to record: the source's `records` dictionary. */
    var records: map<string, Record>
    /** The ids of `records` in insertion order, the order a dictionary iterates in. */
    var order: seq<string>

    /** `order` lists every stored id exactly once. */
    ghost predicate Valid()
      reads this
    {
      && (forall i, j :: 0 <= i < j < |order| ==> order[i] != order[j])
      && (forall k :: k in records <==> k in order)
      && |order| == |records|
    }

    /** Every stored record would pass validation under its own id. */
    ghost predicate AllValid()
      reads this
    {
      forall k :: k in records ==> ValidRecord(k, records[k])
    }

    /** No stored record has a height of zero. */
    predicate NoZeroHeight()
      reads this
    {
      forall k :: k in records ==> records[k].height != 0.0
    }

    /** The stored records in iteration order. */
    function Values(): (rs: seq<Record>)
      reads this
      requires Valid()
      ensures |rs| == |records|
    {
      ValuesOf(order, records)
    }

    /** An empty store. */
    constructor ()
      ensures Valid() && AllValid()
      ensures records == map[] && order == []
    {
      records := map[];
      order := [];
    }

    /** The record stored under `id`, or `NotFound`; nothing is changed. */
    function Get(id: string): (r: Result<Record, Error>)
      reads this
      ensures r.Ok? <==> id in records
      ensures r.Ok? ==> r.value == records[id]
      ensures r.Err? ==> r.error == NotFound
    {
      if id !in records then Err(NotFound) else Ok(records[id])
    }

    /**
     * Validates the fields and then stores them under `id`, overwriting any
     * previous record there; on a validation failure nothing changes.
     */
    method Add(id: string, name: string, age: int, weight: real, height: real) returns (r: Outcome<Error>)
      requires Valid()
      modifies this
      ensures Valid()
      ensures r == Validate(id, name, age, weight, height)
      ensures r.Fail? ==> records == old(records) && order == old(order)
      ensures r.Pass? ==> records == old(records)[id := Record(name, age, weight, height)]
      ensures r.Pass? ==> order == if id in old(records) then old(order) else old(order) + [id]
      ensures r.Pass? ==> Get(id) == Ok(Record(name, age, weight, height))
      ensures old(AllValid()) ==> AllValid()
    {
      r := Validate(id, name, age, weight, height);
      if r.Fail? {
        return;
      }
      if id !in records {
        order := order + [id];
      }
      records := records[id := Record(name, age, weight, height)];
    }

    /**
     * Replaces each supplied field of the record under `id`, without
     * validating it; omitted fields keep their values. Fails with `NotFound`,
     * changing nothing, when `id` is not stored.
     */
    method Update(id: string, name: Option<string>, age: Option<int>, weight: Option<real>, height: Option<real>)
      returns (r: Outcome<Error>)
      requires Valid()
      modifies this
      ensures Valid()
      ensures order == old(order) && records.Keys == old(records.Keys)
      ensures r.Fail? <==> id !in old(records)
      ensures r.Fail? ==> r.error == NotFound && records == old(records)
      ensures r.Pass? ==> records[id].name == name.GetOr(old(records[id].name))
      ensures r.Pass? ==> records[id].age == age.GetOr(old(records[id].age))
      ensures r.Pass? ==> records[id].weight == weight.GetOr(old(records[id].weight))
      ensures r.Pass? ==> records[id].height == height.GetOr(old(records[id].height))
      ensures forall k :: k in records && k != id ==> records[k] == old(records[k])
      ensures name.None? && age.None? && weight.None? && height.None? ==> records == old(records)
      ensures old(AllValid()) && (name.Some? ==> name.value != "") && (age.Some? ==> age.value > 0)
              && (weight.Some? ==> weight.value > 0.0) && (height.Some? ==> height.value > 0.0)
              ==> AllValid()
    {
      if id !in records {
        return Fail(NotFound);
      }
      var rec := records[id];
      if name.Some? {
        rec := rec.(name := name.value);
      }
      if age.Some? {
        rec := rec.(age := age.value);
      }
      if weight.Some? {
        rec := rec.(weight := weight.value);
      }
      if height.Some? {
        rec := rec.(height := height.value);
      }
      records := records[id := rec];
      r := Pass;
    }

    /**
     * The mean age of the stored records, or `None` for an empty store. The
     * mean lies between the youngest and the oldest stored age.
     */
    method AverageAge() returns (r: Option<real>)
      requires Valid()
      ensures r.None? <==> |records| == 0
      ensures r.Some? ==> r.value == Mean(Ages(Values()))
      ensures r.Some? ==> Min(Ages(Values())) <= r.value <= Max(Ages(Values()))
    {
      if |records| == 0 {
        return None;
      }
      ghost var ages := Ages(Values());
      var total := 0.0;
      var i := 0;
      while i < |order|
        invariant 0 <= i <= |order|
        invariant total == Sum(ages[..i])
      {
        assert ages[..i + 1][..i] == ages[..i];
        total := total + records[order[i]].age as real;
        i := i + 1;
      }
      assert ages[..i] == ages;
      r := Some(total / (|records| as real));
      MeanBetween(ages);
    }

    /**
     * The sum of the body mass indices of the stored records in iteration
     * order, or `DivisionByZero` as soon as a stored height is zero.
     */
    method TotalBmi() returns (r: Result<real, Error>)
      requires Valid()
      ensures r.Err? <==> !NoZeroHeight()
      ensures r.Err? ==> r.error == DivisionByZero
      ensures r.Ok? ==> r.value == Sum(Bmis(Values()))
    {
      ghost var rs := Values();
      var total := 0.0;
      var i := 0;
      while i < |order|
        invariant 0 <= i <= |order|
        invariant forall j :: 0 <= j < i ==> rs[j].height != 0.0
        invariant total == Sum(Bmis(rs[..i]))
      {
        var rec := records[order[i]];
        if rec.height == 0.0 {
          return Err(DivisionByZero);
        }
        SumBmisStep(rs, i);
        total := total + Bmi(rec);
        i := i + 1;
      }
      assert rs[..i] == rs;
      HeightsListed(order, records);
      r := Ok(total);
    }

    /**
     * The mean body mass index of the stored records, `None` for an empty
     * store, or `DivisionByZero` when some stored height is zero (possible
     * only through `Update`). A store whose records all passed validation
     * never fails.
     */
    method AverageBmi() returns (r: Result<Option<real>, Error>)
      requires Valid()
      ensures |records| == 0 ==> r == Ok(None)
      ensures |records| > 0 && !NoZeroHeight() ==> r == Err(DivisionByZero)
      ensures |records| > 0 && NoZeroHeight() ==> r.Ok? && r.value.Some?
      ensures |records| > 0 && NoZeroHeight() ==> r.value.value == Mean(Bmis(Values()))
      ensures |records| > 0 && NoZeroHeight() ==> Min(Bmis(Values())) <= r.value.value <= Max(Bmis(Values()))
      ensures AllValid() ==> r.Ok?
    {
      if |records| == 0 {
        return Ok(None);
      }
      var total := TotalBmi();
      if total.Err? {
        return Err(total.error);
      }
      r := Ok(Some(total.value / (|records| as real)));
      MeanBetween(Bmis(Values()));
    }
  }

  /** Extending a prefix of `rs` by one record adds that record's index to the sum. */
  lemma SumBmisStep(rs: seq<Record>, i: nat)
    requires i < |rs|
    requires forall j :: 0 <= j <= i ==> rs[j].height != 0.0
    ensures Sum(Bmis(rs[..i + 1])) == Sum(Bmis(rs[..i])) + Bmi(rs[i])
  {
    var done := Bmis(rs[..i + 1]);
    assert done[..i] == Bmis(rs[..i]);
  }

  /** Checking the heights along a complete key listing checks every stored height. */
  lemma HeightsListed(keys: seq<string>, records: map<string, Record>)
    requires forall k :: k in records <==> k in keys
    requires forall j :: 0 <= j < |keys| ==> keys[j] in records && records[keys[j]].height != 0.0
    ensures forall k :: k in records ==> records[k].height != 0.0
  {
  }
}
