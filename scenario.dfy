/** Client code that exercises the store through its contracts alone. */
module Scenario {
  import opened Wrappers
  import opened Statistics
  import opened PatientRecords

  lemma SumOfTwo(a: real, b: real)
    ensures Sum([a, b]) == a + b
  {
    assert [a, b][..1] == [a];
    SumSingleton(a);
  }

  lemma SumOfThree(a: real, b: real, c: real)
    ensures Sum([a, b, c]) == a + b + c
  {
    assert [a, b, c][..2] == [a, b];
    SumOfTwo(a, b);
  }

  lemma AgesOfThree(keys: seq<string>, records: map<string, Record>)
    requires keys == ["a", "b", "c"]
    requires records == map["a" := Record("Patient 1", 30, 70.0, 1.75)]["b" := Record("Patient 2", 40, 70.0, 1.75)]["c" := Record("Patient 3", 50, 70.0, 1.75)]
    ensures Ages(ValuesOf(keys, records)) == [30.0, 40.0, 50.0]
  {
  }

  /** Alice under "p1" and then Bob under "p2". */
  method AliceAndBob() returns (store: PatientRecords)
    ensures fresh(store) && store.Valid()
    ensures store.order == ["p1", "p2"]
    ensures store.records == map["p1" := Record("Alice", 28, 60.0, 1.60)]["p2" := Record("Bob", 35, 80.0, 1.80)]
  {
    store := new PatientRecords();
    var ok := store.Add("p1", "Alice", 28, 60.0, 1.60);
    assert ok.Pass? && "p2" !in store.records;
    ok := store.Add("p2", "Bob", 35, 80.0, 1.80);
    assert ok.Pass?;
  }

  lemma AgesOfAliceAndBob(keys: seq<string>, records: map<string, Record>)
    requires keys == ["p1", "p2"]
    requires records == map["p1" := Record("Alice", 28, 60.0, 1.60)]["p2" := Record("Bob", 35, 80.0, 1.80)]
    ensures Ages(ValuesOf(keys, records)) == [28.0, 35.0]
  {
  }

  /** Two patients and their average age. */
  method TwoPatientsAverage()
  {
    var store := AliceAndBob();
    AgesOfAliceAndBob(store.order, store.records);
    SumOfTwo(28.0, 35.0);
    var average := store.AverageAge();
    assert average == Some(31.5);
    assert store.Get("p1").value.name == "Alice";
  }

  /** A partial update changes only the supplied field; an unknown id is refused. */
  method TwoPatientsUpdate()
  {
    var store := AliceAndBob();
    var ok := store.Update("p1", None, Some(29), None, None);
    assert ok == Pass;
    assert store.Get("p1") == Ok(Record("Alice", 29, 60.0, 1.60));
    assert store.Get("p2") == Ok(Record("Bob", 35, 80.0, 1.80));
    assert "p9" !in store.records;
    var missing := store.Update("p9", Some("Eve"), None, None, None);
    assert missing == Fail(NotFound);
    assert store.Get("p9") == Err(NotFound);
  }

  /** A store holding two patients aged 30 and 40. */
  method TwoAgeStore() returns (store: PatientRecords)
    ensures fresh(store) && store.Valid()
    ensures store.order == ["a", "b"]
    ensures store.records == map["a" := Record("Patient 1", 30, 70.0, 1.75)]["b" := Record("Patient 2", 40, 70.0, 1.75)]
  {
    store := new PatientRecords();
    var ok := store.Add("a", "Patient 1", 30, 70.0, 1.75);
    assert ok.Pass? && "b" !in store.records;
    ok := store.Add("b", "Patient 2", 40, 70.0, 1.75);
    assert ok.Pass?;
  }

  /** A store holding three patients aged 30, 40 and 50. */
  method ThreeAgeStore() returns (store: PatientRecords)
    ensures fresh(store) && store.Valid()
    ensures store.order == ["a", "b", "c"]
    ensures store.records == map["a" := Record("Patient 1", 30, 70.0, 1.75)]["b" := Record("Patient 2", 40, 70.0, 1.75)]["c" := Record("Patient 3", 50, 70.0, 1.75)]
  {
    store := TwoAgeStore();
    assert "c" !in store.records;
    var ok := store.Add("c", "Patient 3", 50, 70.0, 1.75);
    assert ok.Pass?;
  }

  /** Ages 30, 40 and 50 average to 40. */
  method ThreeAges()
  {
    var store := ThreeAgeStore();
    AgesOfThree(store.order, store.records);
    SumOfThree(30.0, 40.0, 50.0);
    var average := store.AverageAge();
    assert average == Some(40.0);
  }

  /** A rejected add leaves an empty store empty. */
  method RejectedAdd()
  {
    var store := new PatientRecords();
    var ok := store.Add("d", "Invalid Age", -1, 70.0, 1.75);
    assert ok == Fail(Invalid(Age));
    ok := store.Add("", "", -1, 0.0, 0.0);
    assert ok == Fail(Invalid(PatientId));
    var average := store.AverageAge();
    assert average == None;
    var bmi := store.AverageBmi();
    assert bmi == Ok(None);
  }

  /** The BMI of a single record. */
  method SingleBmi()
  {
    var store := new PatientRecords();
    var ok := store.Add("p", "Carol", 40, 70.0, 1.75);
    assert store.Values() == [Record("Carol", 40, 70.0, 1.75)];
    SumSingleton(70.0 / (1.75 * 1.75));
    var bmi := store.AverageBmi();
    assert bmi == Ok(Some(70.0 / (1.75 * 1.75)));
  }

  /** An update may store a height that validation would refuse, and the BMI then fails. */
  method UpdateGap()
  {
    var store := new PatientRecords();
    var ok := store.Add("p", "Carol", 40, 70.0, 1.75);
    ok := store.Update("p", None, None, None, Some(0.0));
    assert ok == Pass;
    assert !store.AllValid();
    var bmi := store.AverageBmi();
    assert bmi == Err(DivisionByZero);
  }
}
