/** The employee conversion of unit/employee.go: the birth-year classifier and
    the converter from the upstream record to the record the service returns. */
module Employee {
  import opened Wrappers
  import Strconv
  import GoInt

  /** The six cohorts, oldest first. */
  datatype Generation = Greatest | Silent | BabyBoomer | GenX | Millennial | GenZ {
    /** The string each cohort stands for, as it appears in the JSON output. */
    function Label(): string {
      match this
      case Greatest => "Greatest"
      case Silent => "Silent"
      case BabyBoomer => "Baby Boomer"
      case GenX => "Generation X"
      case Millennial => "Millennial"
      case GenZ => "Generation Z"
    }

    /** The position of the cohort in the order Greatest < Silent < ... < GenZ. */
    function Rank(): (k: nat)
      ensures k < 6
    {
      match this
      case Greatest => 0
      case Silent => 1
      case BabyBoomer => 2
      case GenX => 3
      case Millennial => 4
      case GenZ => 5
    }
  }

  /** The inclusive upper birth-year bound of every cohort but the youngest,
      oldest cohort first. */
  const UpperBounds: seq<int> := [1924, 1945, 1964, 1980, 1996]

  /** `MapBirthYear`: the first cohort whose upper bound is not below the
      birth year, and Generation Z past the last bound. */
  function MapBirthYear(birthYear: int): (g: Generation)
    ensures g == Greatest <==> birthYear <= 1924
    ensures g == Silent <==> 1925 <= birthYear <= 1945
    ensures g == BabyBoomer <==> 1946 <= birthYear <= 1964
    ensures g == GenX <==> 1965 <= birthYear <= 1980
    ensures g == Millennial <==> 1981 <= birthYear <= 1996
    ensures g == GenZ <==> 1997 <= birthYear
  {
    if birthYear <= 1924 then Greatest
    else if birthYear <= 1945 then Silent
    else if birthYear <= 1964 then BabyBoomer
    else if birthYear <= 1980 then GenX
    else if birthYear <= 1996 then Millennial
    else GenZ
  }

  /** How many of `bounds` lie below `year`: the reading of the bound table in
      which a year's cohort index is the number of cohorts it is too young for. */
  function CountBelow(bounds: seq<int>, year: int): (n: nat)
    ensures n <= |bounds|
  {
    if bounds == [] then 0
    else (if bounds[0] < year then 1 else 0) + CountBelow(bounds[1..], year)
  }

  /** The if-chain agrees with the bound table read as a count. */
  lemma MapBirthYearByTable(birthYear: int)
    ensures MapBirthYear(birthYear).Rank() == CountBelow(UpperBounds, birthYear)
  {
    var y := birthYear;
    assert CountBelow([1996], y) == (if 1996 < y then 1 else 0) by {
      assert [1996][1..] == [];
    }
    assert CountBelow([1980, 1996], y) == (if 1980 < y then 1 else 0) + CountBelow([1996], y) by {
      assert [1980, 1996][1..] == [1996];
    }
    assert CountBelow([1964, 1980, 1996], y) == (if 1964 < y then 1 else 0) + CountBelow([1980, 1996], y) by {
      assert [1964, 1980, 1996][1..] == [1980, 1996];
    }
    assert CountBelow([1945, 1964, 1980, 1996], y)
        == (if 1945 < y then 1 else 0) + CountBelow([1964, 1980, 1996], y) by {
      assert [1945, 1964, 1980, 1996][1..] == [1964, 1980, 1996];
    }
    assert CountBelow(UpperBounds, y) == (if 1924 < y then 1 else 0) + CountBelow([1945, 1964, 1980, 1996], y) by {
      assert UpperBounds[1..] == [1945, 1964, 1980, 1996];
    }
  }

  lemma {:induction false} CountBelowMonotone(bounds: seq<int>, y1: int, y2: int)
    requires y1 <= y2
    ensures CountBelow(bounds, y1) <= CountBelow(bounds, y2)
  {
    if bounds != [] {
      CountBelowMonotone(bounds[1..], y1, y2);
    }
  }

  /** A later birth year never yields an older cohort. */
  lemma MapBirthYearMonotone(y1: int, y2: int)
    requires y1 <= y2
    ensures MapBirthYear(y1).Rank() <= MapBirthYear(y2).Rank()
  {
    MapBirthYearByTable(y1);
    MapBirthYearByTable(y2);
    CountBelowMonotone(UpperBounds, y1, y2);
  }

  /** Every cohort is reached, so the classifier is onto the six labels. */
  lemma MapBirthYearOnto(g: Generation)
    ensures exists y :: MapBirthYear(y) == g
  {
    var y := match g
      case Greatest => 1924
      case Silent => 1945
      case BabyBoomer => 1964
      case GenX => 1980
      case Millennial => 1996
      case GenZ => 1997;
    assert MapBirthYear(y) == g;
  }

  /** The six labels are distinct, so the JSON output identifies the cohort. */
  lemma LabelInjective(g1: Generation, g2: Generation)
    requires g1.Label() == g2.Label()
    ensures g1 == g2
  {
  }

  /** The `Data` object of the upstream JSON record; every field is a string. */
  datatype RemoteData = RemoteData(
    id: string,
    employeeName: string,
    employeeSalary: string,
    employeeAge: string,
    profileImage: string)

  /** The zero value of `Data`: the source declares it as a value struct. */
  const ZeroData := RemoteData("", "", "", "", "")

  /** The upstream record. `Data` is absent when the upstream had none. */
  datatype RemoteEmployee = RemoteEmployee(status: string, data: Option<RemoteData>) {
    /** The fields as the converter reads them: absent data reads as empty strings. */
    function Fields(): (d: RemoteData)
      ensures data.Some? ==> d == data.value
      ensures data.None? ==> d == ZeroData
    {
      match data
      case Some(d) => d
      case None => ZeroData
    }
  }

  /** The record the service returns. */
  datatype Employee = Employee(id: string, name: string, age: int, generation: Generation)

  /** The converter `NewEmployeeFactory(mapBirthYear)` builds, applied to
      `employee` in `currentYear`. The age must parse with Atoi; its error text
      is passed on as is. The birth year is `currentYear - age` computed in
      Go's 64-bit `int`, so it wraps around for extreme ages. */
  function Convert(mapBirthYear: int -> Generation, currentYear: GoInt.Int64, employee: RemoteEmployee): (r: Result<Employee, string>)
    ensures r.Failure? <==> Strconv.Atoi(employee.Fields().employeeAge).Failure?
    ensures r.Failure? ==> r.error == Strconv.Atoi(employee.Fields().employeeAge).error.Error()
    ensures r.Success? ==>
      && r.value.id == employee.Fields().id
      && r.value.name == employee.Fields().employeeName
      && Strconv.Atoi(employee.Fields().employeeAge) == Success(r.value.age)
      && r.value.generation == mapBirthYear(GoInt.Sub64(currentYear, r.value.age))
  {
    var d := employee.Fields();
    match Strconv.Atoi(d.employeeAge)
    case Failure(e) => Failure(e.Error())
    case Success(age) =>
      var birthYear := GoInt.Sub64(currentYear, age);
      Success(Employee(d.id, d.employeeName, age, mapBirthYear(birthYear)))
  }

  /** When the age does not parse, the classifier plays no part in the outcome:
      the source returns before calling it. */
  lemma ConvertIgnoresClassifierOnBadAge(f: int -> Generation, g: int -> Generation, currentYear: GoInt.Int64, employee: RemoteEmployee)
    requires Strconv.Atoi(employee.Fields().employeeAge).Failure?
    ensures Convert(f, currentYear, employee) == Convert(g, currentYear, employee)
  {
  }

  /** The classifier is consulted at one argument only, the birth year
      `currentYear - age` (wrapped to 64 bits): two classifiers that agree
      there give the same outcome. */
  lemma ConvertConsultsOnlyBirthYear(f: int -> Generation, g: int -> Generation, currentYear: GoInt.Int64, employee: RemoteEmployee)
    requires Strconv.Atoi(employee.Fields().employeeAge).Success?
    requires f(GoInt.Sub64(currentYear, Strconv.Atoi(employee.Fields().employeeAge).value))
          == g(GoInt.Sub64(currentYear, Strconv.Atoi(employee.Fields().employeeAge).value))
    ensures Convert(f, currentYear, employee) == Convert(g, currentYear, employee)
  {
  }

  /** The status, the salary and the profile image do not affect the outcome. */
  lemma ConvertIgnoresUnusedFields(f: int -> Generation, currentYear: GoInt.Int64, e1: RemoteEmployee, e2: RemoteEmployee)
    requires e1.Fields().id == e2.Fields().id
    requires e1.Fields().employeeName == e2.Fields().employeeName
    requires e1.Fields().employeeAge == e2.Fields().employeeAge
    ensures Convert(f, currentYear, e1) == Convert(f, currentYear, e2)
  {
  }

  /** The converter's garbage-age case: the age "NotANumber" yields exactly
      Atoi's error text, whatever the classifier. */
  lemma ConvertGarbageAge(f: int -> Generation, currentYear: GoInt.Int64, age: string)
    requires age == "NotANumber"
    ensures Convert(f, currentYear, RemoteEmployee("blah", Some(RemoteData("1", "Bob", "123", age, "foo"))))
         == Failure("strconv.Atoi: parsing \"" + age + "\": invalid syntax")
  {
    Strconv.NotANumberMessage(age);
  }

  /** The converter's happy path: age "20" gives age 20 and whatever the
      classifier says about `currentYear - 20` (a 64-bit subtraction, as in the
      test's own expectation). */
  lemma ConvertHappyPath(f: int -> Generation, currentYear: GoInt.Int64)
    ensures Convert(f, currentYear, RemoteEmployee("blah", Some(RemoteData("1", "Bob", "123", "20", "foo"))))
         == Success(Employee("1", "Bob", 20, f(GoInt.Sub64(currentYear, 20))))
  {
    Strconv.AtoiFormatInt(20);
    assert Strconv.FormatInt(20) == "20";
  }

  /** The most negative age Atoi accepts makes the birth-year subtraction
      overflow: in 2026 it wraps to `2026 - 2^63`, an ancient year, so the
      converter reports the Greatest generation. */
  lemma ConvertMinimumAgeWraps(age: string)
    requires age == Strconv.FormatInt(GoInt.MinInt64)
    ensures Convert(MapBirthYear, 2026, RemoteEmployee("s", Some(RemoteData("1", "B", "", age, ""))))
         == Success(Employee("1", "B", GoInt.MinInt64, Greatest))
  {
    Strconv.AtoiFormatInt(GoInt.MinInt64);
    GoInt.Sub64PastMax(2026, GoInt.MinInt64);
  }

  /** With the production classifier, an employee aged 61 is a Baby Boomer in
      the years 2007 to 2025 and one aged 33 a Millennial in 2014 to 2029. */
  lemma SampleEmployeesGenerations(currentYear: GoInt.Int64)
    ensures 2007 <= currentYear <= 2025 ==> MapBirthYear(currentYear - 61) == BabyBoomer
    ensures 2014 <= currentYear <= 2029 ==> MapBirthYear(currentYear - 33) == Millennial
  {
  }
}
