/**
 * Validation and saving of the calibration and equipment forms
 * (formManager.js). A form, and a saved metadata object, is a map from
 * field name to string value; a missing `calibration` or `equipment`
 * object is `None`.
 */
module FormManager {
  import opened Js

  type Fields = map<string, string>

  /** The store's `testMetadata` object. */
  datatype TestMetadata = TestMetadata(calibration: Option<Fields>, equipment: Option<Fields>)

  const EmptyMetadata: TestMetadata := TestMetadata(None, None)

  /** The required calibration fields, in the order the source checks them. */
  const CalibrationFields: seq<string> := [
    "loadCellPartNo", "loadCellSerialNo", "loadCellModelNo",
    "loadCellLastCalibrationDate", "loadCellCalibrationValidity",
    "displayPartNo", "displayModelNo", "displaySerialNo",
    "displayLastCalibrationDate", "displayCalibrationValidity"
  ]

  /** The required equipment fields as `collectAndSaveEquipmentTest` lists them. */
  const EquipmentRequiredFields: seq<string> := [
    "equipmentName", "typeOfEquipment", "equipmentPartNo", "equipmentModelNo",
    "equipmentSerialNo", "ratedLoadCapacity", "proofLoadPercentage",
    "yearOfManufacture", "testDate", "location", "testedBy", "certifiedBy"
  ]

  /** The required equipment fields as `isTestMetadataComplete` lists them. */
  const EquipmentCheckedFields: seq<string> := [
    "equipmentName", "typeOfEquipment", "equipmentPartNo", "equipmentSerialNo",
    "equipmentModelNo", "yearOfManufacture", "testDate", "ratedLoadCapacity",
    "proofLoadPercentage", "location", "testedBy", "certifiedBy"
  ]

  /** `obj || {}` */
  function OrEmpty(m: Option<Fields>): Fields
  {
    if m.Some? then m.value else map[]
  }

  /** Every listed field is present and not blank. */
  predicate AllPresent(m: Fields, fields: seq<string>)
  {
    forall i :: 0 <= i < |fields| ==> !Blank(m, fields[i])
  }

  /** The specification of `isTestMetadataComplete`. */
  predicate MetadataComplete(meta: TestMetadata)
  {
    AllPresent(OrEmpty(meta.calibration), CalibrationFields)
    && AllPresent(OrEmpty(meta.equipment), EquipmentCheckedFields)
  }

  /** The loop shared by the completeness checks: stop at the first blank field. */
  method CheckFields(m: Fields, fields: seq<string>) returns (ok: bool)
    ensures ok <==> AllPresent(m, fields)
  {
    for i := 0 to |fields|
      invariant forall j :: 0 <= j < i ==> !Blank(m, fields[j])
    {
      if Blank(m, fields[i]) {
        return false;
      }
    }
    return true;
  }

  /** `isTestMetadataComplete()` on the store's metadata. */
  method IsTestMetadataComplete(meta: TestMetadata) returns (ok: bool)
    ensures ok <==> MetadataComplete(meta)
  {
    var calibrationData := OrEmpty(meta.calibration);
    var equipmentData := OrEmpty(meta.equipment);
    ok := CheckFields(calibrationData, CalibrationFields);
    if !ok {
      return;
    }
    ok := CheckFields(equipmentData, EquipmentCheckedFields);
  }

  /**
   * `isCalibrationFormComplete(form)`: the form maps input names to their
   * values; an input that does not exist is an absent key.
   */
  method IsCalibrationFormComplete(form: Fields) returns (ok: bool)
    ensures ok <==> AllPresent(form, CalibrationFields)
  {
    ok := CheckFields(form, CalibrationFields);
  }

  /** Complete metadata has both objects, and the equipment one is non-empty. */
  lemma CompleteHasEquipment(meta: TestMetadata)
    requires MetadataComplete(meta)
    ensures meta.calibration.Some? && meta.equipment.Some? && meta.equipment.value != map[]
  {
    assert !Blank(OrEmpty(meta.calibration), CalibrationFields[0]);
    assert !Blank(OrEmpty(meta.equipment), EquipmentCheckedFields[0]);
  }

  /** `requiredFields.filter(field => !dataObj[field] || dataObj[field].trim() === '')` */
  function MissingFields(m: Fields, fields: seq<string>): (r: seq<string>)
    ensures |r| <= |fields|
    ensures forall f :: f in r <==> f in fields && Blank(m, f)
    ensures r == [] <==> AllPresent(m, fields)
  {
    if fields == [] then []
    else
      var rest := MissingFields(m, fields[1..]);
      assert forall i :: 1 <= i < |fields| ==> fields[i] == fields[1..][i - 1];
      if Blank(m, fields[0]) then [fields[0]] + rest else rest
  }

  /**
   * The form after `requiredFields.forEach(field => dataObj[field] = dataObj[field].trim())`:
   * the listed fields hold their trimmed values, every other key is as it was.
   */
  function Trimmed(m: Fields, fields: seq<string>): (r: Fields)
    ensures r.Keys == m.Keys
    ensures forall k :: k in m && k in fields ==> r[k] == Trim(m[k])
    ensures forall k :: k in m && k !in fields ==> r[k] == m[k]
  {
    map k | k in m :: if k in fields then Trim(m[k]) else m[k]
  }

  /** The trimming loop itself, over a copy of the form data. */
  method TrimRequired(data: Fields, fields: seq<string>) returns (r: Fields)
    requires forall i :: 0 <= i < |fields| ==> fields[i] in data
    ensures r == Trimmed(data, fields)
  {
    r := data;
    for i := 0 to |fields|
      invariant r.Keys == data.Keys
      invariant forall k :: k in r ==> r[k] == if k in fields[..i] then Trim(data[k]) else data[k]
    {
      var f := fields[i];
      r := r[f := Trim(data[f])];
      forall k | k in r
        ensures r[k] == if k in fields[..i + 1] then Trim(data[k]) else data[k]
      {
        assert k in fields[..i + 1] <==> k in fields[..i] || k == f by {
          assert fields[..i + 1] == fields[..i] + [f];
        }
      }
    }
    assert fields[..|fields|] == fields;
    assert forall k :: k in r ==> r[k] == Trimmed(data, fields)[k];
  }

  /** Trimming a non-blank value leaves it non-blank. */
  lemma TrimKeepsPresent(m: Fields, fields: seq<string>)
    requires AllPresent(m, fields)
    ensures AllPresent(Trimmed(m, fields), fields)
  {
    forall i | 0 <= i < |fields|
      ensures !Blank(Trimmed(m, fields), fields[i])
    {
      TrimIdempotent(m[fields[i]]);
    }
  }

  /** `resetEquipmentData()`: the equipment object becomes `{}`, calibration is kept. */
  function ResetEquipmentData(meta: TestMetadata): (r: TestMetadata)
    ensures r.calibration == meta.calibration
    ensures r.equipment == Some(map[])
    ensures !MetadataComplete(r)
  {
    var r := meta.(equipment := Some(map[]));
    assert Blank(OrEmpty(r.equipment), EquipmentCheckedFields[0]);
    r
  }

  /**
   * `collectAndSaveCalibration(form)`. `saved` is whether writing
   * masterCalibration.json succeeded; a failed write is caught and reported
   * as `false`. Returns the result and the store's new `testMetadata`.
   */
  method CollectAndSaveCalibration(form: Fields, meta: TestMetadata, saved: bool)
    returns (ok: bool, meta': TestMetadata)
    ensures ok <==> AllPresent(form, CalibrationFields) && saved
    ensures !ok ==> meta' == meta
    ensures ok ==> meta'.calibration == Some(Trimmed(form, CalibrationFields))
    ensures meta'.equipment == meta.equipment
  {
    var missing := MissingFields(form, CalibrationFields);
    if |missing| > 0 {
      return false, meta;
    }
    var dataObj := TrimRequired(form, CalibrationFields);
    if !saved {
      return false, meta;
    }
    return true, meta.(calibration := Some(dataObj));
  }

  /** Saved calibration passes the calibration half of `isTestMetadataComplete`. */
  lemma SavedCalibrationComplete(form: Fields)
    requires AllPresent(form, CalibrationFields)
    ensures AllPresent(Trimmed(form, CalibrationFields), CalibrationFields)
  {
    TrimKeepsPresent(form, CalibrationFields);
  }

  /** The equipment form after the blank `testDate` is replaced by today's date. */
  function WithTestDate(form: Fields, today: string): (r: Fields)
  {
    if Blank(form, "testDate") then form["testDate" := today] else form
  }

  /** With a non-blank date for today, `testDate` is never reported missing. */
  lemma TestDateNeverMissing(form: Fields, today: string)
    requires Trim(today) != ""
    ensures "testDate" !in MissingFields(WithTestDate(form, today), EquipmentRequiredFields)
  {
  }

  /** A field whose `Number(...)` value is a number greater than zero. */
  predicate PositiveNumber(toNumber: string -> Option<real>, m: Fields, key: string)
  {
    key in m && toNumber(m[key]).Some? && toNumber(m[key]).value > 0.0
  }

  /** The equipment data after the date default and the trimming of the required fields. */
  function Prepared(form: Fields, today: string): Fields
  {
    Trimmed(WithTestDate(form, today), EquipmentRequiredFields)
  }

  /** The conditions under which `collectAndSaveEquipmentTest` saves. */
  predicate EquipmentAccepted(
    calibrationForm: Fields, form: Fields, today: string, toNumber: string -> Option<real>)
  {
    && AllPresent(calibrationForm, CalibrationFields)
    && AllPresent(WithTestDate(form, today), EquipmentRequiredFields)
    && PositiveNumber(toNumber, Prepared(form, today), "ratedLoadCapacity")
    && PositiveNumber(toNumber, Prepared(form, today), "proofLoadPercentage")
  }

  /** `capacity * (percentage / 100)` */
  function ProofLoad(capacity: real, percentage: real): (r: real)
    ensures capacity > 0.0 && percentage > 0.0 ==> r > 0.0
    ensures percentage == 100.0 ==> r == capacity
  {
    capacity * (percentage / 100.0)
  }

  /** Where the two numeric fields sit in the required list. */
  lemma EquipmentNumberFields()
    ensures EquipmentRequiredFields[5] == "ratedLoadCapacity"
    ensures EquipmentRequiredFields[6] == "proofLoadPercentage"
  {
  }

  /** A field of a complete form is a key of it. */
  lemma PresentIn(m: Fields, fields: seq<string>, i: nat)
    requires AllPresent(m, fields) && i < |fields|
    ensures fields[i] in m
  {
    assert !Blank(m, fields[i]);
  }

  /**
   * The first half of `collectAndSaveEquipmentTest`: default the date,
   * reject a blank required field, trim the required fields.
   */
  method PrepareEquipment(form: Fields, today: string) returns (ok: bool, data: Fields)
    ensures ok <==> AllPresent(WithTestDate(form, today), EquipmentRequiredFields)
    ensures ok ==> data == Prepared(form, today)
    ensures ok ==> "ratedLoadCapacity" in data && "proofLoadPercentage" in data
  {
    var dated := WithTestDate(form, today);
    var missing := MissingFields(dated, EquipmentRequiredFields);
    if |missing| > 0 {
      return false, map[];
    }
    data := TrimRequired(dated, EquipmentRequiredFields);
    EquipmentNumberFields();
    PresentIn(dated, EquipmentRequiredFields, 5);
    PresentIn(dated, EquipmentRequiredFields, 6);
    return true, data;
  }

  /**
   * `collectAndSaveEquipmentTest(equipmentForm, calibrationForm)`.
   * `toNumber` is JavaScript's `Number(...)` (None for NaN); `today` is
   * `toLocaleDateString` of the current date, `formatProof` is `toFixed(1)`
   * and `validity` is the computed certificate-validity date string.
   * Returns the result, the store's new `testMetadata` and, on success,
   * the numeric proof load.
   */
  method CollectAndSaveEquipmentTest(
    equipmentForm: Fields, calibrationForm: Fields, meta: TestMetadata,
    today: string, toNumber: string -> Option<real>, formatProof: real -> string,
    validity: string)
    returns (ok: bool, meta': TestMetadata, proofLoad: real)
    ensures ok <==> EquipmentAccepted(calibrationForm, equipmentForm, today, toNumber)
    ensures !ok ==> meta' == meta
    ensures meta'.calibration == meta.calibration
    ensures ok ==>
      var data := Prepared(equipmentForm, today);
      && proofLoad == ProofLoad(toNumber(data["ratedLoadCapacity"]).value, toNumber(data["proofLoadPercentage"]).value)
      && proofLoad > 0.0
      && meta'.equipment == Some(data["proofLoad" := formatProof(proofLoad)]["certificateValidity" := validity])
  {
    var calibrationOk := IsCalibrationFormComplete(calibrationForm);
    if !calibrationOk {
      return false, meta, 0.0;
    }
    var present, dataObj := PrepareEquipment(equipmentForm, today);
    if !present {
      return false, meta, 0.0;
    }
    var capacity := toNumber(dataObj["ratedLoadCapacity"]);
    if capacity.None? || capacity.value <= 0.0 {
      return false, meta, 0.0;
    }
    var proofLoadPercent := toNumber(dataObj["proofLoadPercentage"]);
    if proofLoadPercent.None? || proofLoadPercent.value <= 0.0 {
      return false, meta, 0.0;
    }
    proofLoad := ProofLoad(capacity.value, proofLoadPercent.value);
    dataObj := dataObj["proofLoad" := formatProof(proofLoad)];
    dataObj := dataObj["certificateValidity" := validity];
    return true, meta.(equipment := Some(dataObj)), proofLoad;
  }
}
