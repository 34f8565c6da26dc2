/**
 * The intake form (src/components/diagnosis/PatientForm.jsx): a record of six fields
 * updated one field at a time, submitted as it stands, with a free-text symptom box that
 * is shown only while the symptom field holds the literal "Other symptoms".
 */
module PatientForm {
  import opened Wrappers
  import opened JsText

  /** The keys of the form record. */
  datatype Field = FullName | Age | Gender | Phone | MedicalHistory | Symptoms

  /** A value of the record: typed text, or what `parseInt` made of the age box. */
  datatype FieldValue = Text(text: string) | Number(n: int) | NaN

  /** A patient record as the form and the diagnosis page pass it around. */
  type Record = map<Field, FieldValue>

  const AllFields: set<Field> := {FullName, Age, Gender, Phone, MedicalHistory, Symptoms}

  /** The record the form starts from: every field an empty string. */
  const InitialForm: Record := map f | f in AllFields :: Text("")

  /** The choices of the primary-symptom menu, in menu order. */
  const SymptomOptions: seq<string> := [
    "Blurry or distorted vision",
    "Eye pain",
    "Irritation",
    "Redness",
    "Seeing floaters or flashes of light",
    "Difficulty with night vision",
    "Sensitivity to light",
    "Double vision",
    "Sudden or gradual loss of vision",
    "Excessive tearing or discharge from eye",
    "Headache",
    "Other symptoms"
  ]

  /** The menu choice that opens the free-text symptom box. */
  const OtherSymptoms: string := "Other symptoms"

  /** The menu has twelve choices, the last of which opens the free-text box; none repeats. */
  lemma SymptomMenuShape()
    ensures |SymptomOptions| == 12
    ensures SymptomOptions[|SymptomOptions| - 1] == OtherSymptoms
    ensures forall i :: 0 <= i < |SymptomOptions| - 1 ==> SymptomOptions[i] != OtherSymptoms
  {
  }

  /** What the age box stores for typed text: `parseInt` of it, NaN when it holds no number. */
  function AgeValue(typed: string): (v: FieldValue)
    ensures v == NaN <==> ParseInt(typed) == None
    ensures v.Number? ==> Some(v.n) == ParseInt(typed)
    ensures v.Number? || v == NaN
  {
    match ParseInt(typed)
    case None => NaN
    case Some(n) => Number(n)
  }

  /** Typing the decimal text of an age stores that age as a number. */
  lemma AgeOfDecimalText(n: int)
    ensures AgeValue(IntToString(n)) == Number(n)
  {
    ParseIntOfIntToString(n, "");
    assert IntToString(n) + "" == IntToString(n);
  }

  /** Clearing the age box stores NaN, not an empty string. */
  lemma ClearedAgeIsNaN()
    ensures AgeValue("") == NaN
  {
    assert LeadingDigits("") == [];
  }

  /** The free-text box is on screen exactly while the symptom field is "Other symptoms". */
  predicate ShowsCustomSymptoms(record: Record) {
    Symptoms in record && record[Symptoms] == Text(OtherSymptoms)
  }

  class PatientFormState {
    var formData: Record

    /** The record always holds exactly the six fields. */
    predicate Valid()
      reads this
    {
      formData.Keys == AllFields
    }

    constructor ()
      ensures Valid() && formData == InitialForm
      ensures forall f :: f in AllFields ==> formData[f] == Text("")
      ensures !ShowsCustomSymptoms(formData)
    {
      formData := InitialForm;
    }

    /** `handleChange(field, value)`: sets one field and keeps every other. */
    method HandleChange(field: Field, value: FieldValue)
      requires Valid()
      modifies this
      ensures Valid()
      ensures formData == old(formData)[field := value]
      ensures formData[field] == value
      ensures forall f :: f in AllFields && f != field ==> formData[f] == old(formData)[f]
    {
      formData := formData[field := value];
    }

    /** The age box's `onChange`: the parsed age replaces the stored one. */
    method TypeAge(typed: string)
      requires Valid()
      modifies this
      ensures Valid()
      ensures formData == old(formData)[Age := AgeValue(typed)]
    {
      var parsed := ParseInt(typed);
      var value := if parsed.Some? then Number(parsed.value) else NaN;
      HandleChange(Age, value);
    }

    /** The symptom menu's `onValueChange`. */
    method SelectSymptom(option: string)
      requires Valid() && option in SymptomOptions
      modifies this
      ensures Valid()
      ensures formData == old(formData)[Symptoms := Text(option)]
      ensures ShowsCustomSymptoms(formData) <==> option == OtherSymptoms
    {
      HandleChange(Symptoms, Text(option));
    }

    /**
     * The free-text box's `onChange` overwrites the symptom field itself, so the box stays
     * open only if the typed text happens to be "Other symptoms".
     */
    method TypeCustomSymptoms(text: string)
      requires Valid() && ShowsCustomSymptoms(formData)
      modifies this
      ensures Valid()
      ensures formData == old(formData)[Symptoms := Text(text)]
      ensures ShowsCustomSymptoms(formData) <==> text == OtherSymptoms
    {
      HandleChange(Symptoms, Text(text));
    }

    /** `handleSubmit`: the record is passed on as it stands, with no validation. */
    method HandleSubmit() returns (submitted: Record)
      requires Valid()
      ensures submitted == formData
      ensures submitted.Keys == AllFields
    {
      submitted := formData;
    }
  }
}
