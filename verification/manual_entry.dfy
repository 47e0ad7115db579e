/** The manual data-entry form: the five energy data types, the unit table of each type, the
    validation schema of a submitted form, and the type cards that reset the unit. */
module ManualEntry {
  import opened Common

  datatype DataType = Electricity | NaturalGas | Lpg | Chemical | Diesel

  /** The value the form stores in its `dataType` field. */
  function TypeName(t: DataType): string
  {
    match t
    case Electricity => "electricity"
    case NaturalGas => "natural_gas"
    case Lpg => "lpg"
    case Chemical => "chemical"
    case Diesel => "diesel"
  }

  /** The enumeration check of the schema: exactly the five type names are accepted. */
  function ParseDataType(s: string): (r: Option<DataType>)
    ensures forall t :: r == Some(t) <==> s == TypeName(t)
  {
    if s == "electricity" then Some(Electricity)
    else if s == "natural_gas" then Some(NaturalGas)
    else if s == "lpg" then Some(Lpg)
    else if s == "chemical" then Some(Chemical)
    else if s == "diesel" then Some(Diesel)
    else None
  }

  /** Names and types correspond one to one. */
  lemma TypeNameRoundTrip(t: DataType, s: string)
    ensures ParseDataType(TypeName(t)) == Some(t)
    ensures ParseDataType(s).Some? ==> TypeName(ParseDataType(s).value) == s
  {
  }

  function DefaultUnit(t: DataType): string
  {
    match t
    case Electricity => "kWh"
    case NaturalGas => "m³"
    case Lpg => "kg"
    case Chemical => "kg"
    case Diesel => "L"
  }

  /** The units offered for a type, in the order of the unit selector. */
  function Units(t: DataType): seq<string>
  {
    match t
    case Electricity => ["kWh", "MWh"]
    case NaturalGas => ["m³", "ft³"]
    case Lpg => ["kg", "t"]
    case Chemical => ["kg", "L"]
    case Diesel => ["L", "gal"]
  }

  /** The unit table is well formed: two distinct units per type, the first being the default. */
  lemma UnitTableWellFormed(t: DataType)
    ensures |Units(t)| == 2 && Units(t)[0] == DefaultUnit(t) && Units(t)[0] != Units(t)[1]
    ensures DefaultUnit(t) in Units(t)
  {
  }

  /** The raw values of the form as the schema receives them; `notes` is the only optional field. */
  datatype FormValues = FormValues(
    dataType: string,
    buildingId: string,
    reportDate: string,
    value: string,
    unit: string,
    notes: Option<string>)

  /** A form the schema accepted, with the data type decoded. */
  datatype Report = Report(
    dataType: DataType,
    buildingId: string,
    reportDate: string,
    value: string,
    unit: string,
    notes: Option<string>)

  /** The schema: a known data type and non-empty building, date, value and unit. The value is only
      checked to be non-empty and the unit is not checked against the type. */
  function Validate(v: FormValues): (r: Option<Report>)
    ensures r.Some? <==>
      ParseDataType(v.dataType).Some? && v.buildingId != [] && v.reportDate != [] && v.value != [] && v.unit != []
    ensures r.Some? ==>
      && TypeName(r.value.dataType) == v.dataType
      && r.value.buildingId == v.buildingId && r.value.reportDate == v.reportDate
      && r.value.value == v.value && r.value.unit == v.unit && r.value.notes == v.notes
  {
    match ParseDataType(v.dataType)
    case None => None
    case Some(t) =>
      if |v.buildingId| >= 1 && |v.reportDate| >= 1 && |v.value| >= 1 && |v.unit| >= 1
      then Some(Report(t, v.buildingId, v.reportDate, v.value, v.unit, v.notes))
      else None
  }

  /** The schema alone lets through a value that is no number and a unit of another type. */
  lemma ValidateIsLenient()
    ensures Validate(FormValues("electricity", "1", "2023-06-20", "abc", "gal", None)).Some?
    ensures "gal" !in Units(Electricity)
  {
  }

  /** The form as the screen holds it: the selected type card and the field values. */
  datatype FormState = FormState(selectedType: DataType, values: FormValues)

  /** The data type field names the selected card and the unit is one of that card's units. */
  predicate Consistent(s: FormState)
  {
    s.values.dataType == TypeName(s.selectedType) && s.values.unit in Units(s.selectedType)
  }

  /** The form when the screen opens: electricity in kWh, dated `today`, the other fields empty. */
  function InitialForm(today: string): (s: FormState)
    ensures Consistent(s)
    ensures s.selectedType == Electricity && s.values.unit == "kWh"
    ensures s.values.buildingId == [] && s.values.value == [] && s.values.reportDate == today
  {
    FormState(Electricity, FormValues(TypeName(Electricity), "", today, "", DefaultUnit(Electricity), Some("")))
  }

  /** `handleTypeChange`: the card, the data type and the unit follow the chosen type; the
      building, date, value and notes are kept. */
  function HandleTypeChange(s: FormState, t: DataType): (r: FormState)
    ensures Consistent(r)
    ensures r.selectedType == t && r.values.unit == DefaultUnit(t)
    ensures r.values.buildingId == s.values.buildingId && r.values.reportDate == s.values.reportDate
    ensures r.values.value == s.values.value && r.values.notes == s.values.notes
  {
    UnitTableWellFormed(t);
    FormState(t, s.values.(dataType := TypeName(t), unit := DefaultUnit(t)))
  }

  /** The options of the unit selector: the units of the selected type only. */
  function UnitChoices(s: FormState): (r: seq<string>)
    ensures forall u :: u in r <==> u in Units(s.selectedType)
    ensures |r| == 2 && r[0] != r[1] && r[0] == DefaultUnit(s.selectedType)
  {
    UnitTableWellFormed(s.selectedType);
    Units(s.selectedType)
  }

  /** Picking a unit from the selector. */
  function SelectUnit(s: FormState, u: string): (r: FormState)
    requires u in UnitChoices(s)
    ensures r.values.unit == u && r.selectedType == s.selectedType
  {
    s.(values := s.values.(unit := u))
  }

  /** Whatever the user clicks — type cards and offered units, in any order — a consistent form
      stays consistent, and a consistent form of a complete draft passes the schema. */
  lemma ConsistencyPreserved(s: FormState, t: DataType, u: string)
    requires Consistent(s)
    ensures Consistent(HandleTypeChange(s, t))
    ensures u in UnitChoices(s) ==> Consistent(SelectUnit(s, u))
    ensures s.values.buildingId != [] && s.values.reportDate != [] && s.values.value != [] ==>
      Validate(s.values) == Some(Report(s.selectedType, s.values.buildingId, s.values.reportDate,
                                        s.values.value, s.values.unit, s.values.notes))
  {
    UnitTableWellFormed(s.selectedType);
    TypeNameRoundTrip(s.selectedType, s.values.dataType);
  }
}
