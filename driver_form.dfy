/** The driver's maintenance form of frontend/src/pages/driver/DriverForm.jsx:
    the vehicle choices of a group, the field handlers (a group change resets
    the vehicle), the image list capped at five with its previews, and the
    validation order before submit. */
module DriverForm {
  import opened Common

  datatype Lang = Ar | En

  const MaxImages: nat := 5

  /** The vehicle placeholder ("chooseVehicle") in each language. */
  function ChooseVehicle(lang: Lang): string {
    match lang
    case Ar => "اختر المركبة"
    case En => "Select Vehicle"
  }

  /** The "required" toast in each language. */
  function RequiredMessage(lang: Lang): string {
    match lang
    case Ar => "رجاءً عبّي الحقول المطلوبة"
    case En => "Please fill required fields"
  }

  /** The "invalidNumbers" toast in each language. */
  function InvalidNumbersMessage(lang: Lang): string {
    match lang
    case Ar => "أرقام غير صحيحة"
    case En => "Invalid numbers"
  }

  /** An entry of `ALL_VEHICLES`: the value and its two labels. */
  datatype Vehicle = Vehicle(value: string, ar: string, en: string)

  /** `ALL_VEHICLES[group] || []`. */
  function GroupVehicles(group: string): (r: seq<Vehicle>)
    ensures group != "Trucks" && group != "Vans" && group != "Excavators" ==> r == []
    ensures group == "Trucks" || group == "Vans" || group == "Excavators" ==> |r| == 2
  {
    if group == "Trucks" then
      [Vehicle("Truck 123", "شاحنة 123", "Truck 123"), Vehicle("Truck 456", "شاحنة 456", "Truck 456")]
    else if group == "Vans" then
      [Vehicle("Van A", "فان A", "Van A"), Vehicle("Van B", "فان B", "Van B")]
    else if group == "Excavators" then
      [Vehicle("Exc 01", "حفّارة 01", "Exc 01"), Vehicle("Exc 02", "حفّارة 02", "Exc 02")]
    else []
  }

  datatype SelectOption = SelectOption(value: string, text: string)

  function LabelIn(v: Vehicle, lang: Lang): string {
    match lang
    case Ar => v.ar
    case En => v.en
  }

  /** `vehicleOptions`: the placeholder, then the group's vehicles in order,
      labelled in the page language. */
  function VehicleOptions(group: string, lang: Lang): (r: seq<SelectOption>)
    ensures |r| == 1 + |GroupVehicles(group)|
    ensures r[0] == SelectOption("", ChooseVehicle(lang))
    ensures forall i :: 0 <= i < |GroupVehicles(group)| ==>
              r[i + 1] == SelectOption(GroupVehicles(group)[i].value, LabelIn(GroupVehicles(group)[i], lang))
  {
    var vs := GroupVehicles(group);
    [SelectOption("", ChooseVehicle(lang))] + seq(|vs|, i requires 0 <= i < |vs| => SelectOption(vs[i].value, LabelIn(vs[i], lang)))
  }

  /** An empty or unknown group offers only the placeholder. */
  lemma UnknownGroupOnlyPlaceholder(group: string, lang: Lang)
    requires group != "Trucks" && group != "Vans" && group != "Excavators"
    ensures VehicleOptions(group, lang) == [SelectOption("", ChooseVehicle(lang))]
  {
  }

  /** Every non-placeholder option belongs to the selected group. */
  lemma OptionsBelongToGroup(group: string, lang: Lang, o: SelectOption)
    requires o in VehicleOptions(group, lang) && o.value != ""
    ensures exists v :: v in GroupVehicles(group) && v.value == o.value
  {
    var r := VehicleOptions(group, lang);
    var k :| 0 <= k < |r| && r[k] == o;
    assert k != 0;
    assert GroupVehicles(group)[k - 1] in GroupVehicles(group);
  }

  /** `numberOk(v)`: empty, or a finite non-negative number. `Number(v)` is
      the `isNonNegativeNumber` input. */
  function NumberOk(v: string, isNonNegativeNumber: string -> bool): (r: bool)
    ensures v == "" ==> r
    ensures v != "" ==> (r <==> isNonNegativeNumber(v))
  {
    v == "" || isNonNegativeNumber(v)
  }

  /** The form fields a text input can change. */
  datatype FieldName = Group | VehicleField | Odometer | EngineHours | Notes

  /** An attached image file. */
  datatype ImageFile = ImageFile(name: string, size: nat)

  /** A preview is an object URL made for one file. */
  datatype Preview = ObjectUrl(file: ImageFile)

  datatype ToastKind = ToastError | ToastSuccess
  datatype Toast = Toast(kind: ToastKind, msg: string)

  /** `s` without position `idx`; an index outside `s` removes nothing. */
  function RemoveAt<T>(s: seq<T>, idx: int): (r: seq<T>)
    ensures 0 <= idx < |s| ==> |r| == |s| - 1
    ensures !(0 <= idx < |s|) ==> r == s
    ensures 0 <= idx < |s| ==> forall i :: 0 <= i < |r| ==> r[i] == (if i < idx then s[i] else s[i + 1])
  {
    if 0 <= idx < |s| then s[..idx] + s[idx + 1..] else s
  }

  function Previews(files: seq<ImageFile>): (r: seq<Preview>)
    ensures |r| == |files| && forall i :: 0 <= i < |files| ==> r[i] == ObjectUrl(files[i])
  {
    seq(|files|, i requires 0 <= i < |files| => ObjectUrl(files[i]))
  }

  class DriverFormPage {
    const lang: Lang
    var group: string
    var vehicle: string
    var odometer: string
    var engineHours: string
    var notes: string
    var images: seq<ImageFile>
    var previews: seq<Preview>
    var toast: Option<Toast>
    /** The `last_group` and `last_vehicle` storage entries. */
    var lastGroup: Option<string>
    var lastVehicle: Option<string>

    /** At most five images, each shown by a preview of itself, in order. */
    ghost predicate Valid()
      reads this
    {
      |images| <= MaxImages && previews == Previews(images)
    }

    /** The initial form; group and vehicle come back from storage. */
    constructor (lang: Lang, storedGroup: Option<string>, storedVehicle: Option<string>)
      ensures Valid() && this.lang == lang
      ensures group == (if Truthy(storedGroup) then storedGroup.value else "")
      ensures vehicle == (if Truthy(storedVehicle) then storedVehicle.value else "")
      ensures odometer == "" && engineHours == "" && notes == "" && images == [] && toast == None
      ensures lastGroup == storedGroup && lastVehicle == storedVehicle
    {
      this.lang := lang;
      group := if Truthy(storedGroup) then storedGroup.value else "";
      vehicle := if Truthy(storedVehicle) then storedVehicle.value else "";
      odometer, engineHours, notes := "", "", "";
      images, previews := [], [];
      toast := None;
      lastGroup, lastVehicle := storedGroup, storedVehicle;
    }

    /** `handleChange`: stores the value; a new group clears the vehicle and
        its stored copy, a vehicle choice is stored. */
    method HandleChange(name: FieldName, value: string)
      modifies this`group, this`vehicle, this`odometer, this`engineHours, this`notes, this`lastGroup, this`lastVehicle
      ensures name == Group ==>
                group == value && vehicle == "" && lastGroup == Some(value) && lastVehicle == None
      ensures name == VehicleField ==>
                vehicle == value && group == old(group) && lastVehicle == Some(value) && lastGroup == old(lastGroup)
      ensures name != Group && name != VehicleField ==>
                group == old(group) && vehicle == old(vehicle) && lastGroup == old(lastGroup) && lastVehicle == old(lastVehicle)
      ensures name == Odometer ==> odometer == value
      ensures name != Odometer ==> odometer == old(odometer)
      ensures name == EngineHours ==> engineHours == value
      ensures name != EngineHours ==> engineHours == old(engineHours)
      ensures name == Notes ==> notes == value
      ensures name != Notes ==> notes == old(notes)
    {
      match name {
        case Group => group := value;
        case VehicleField => vehicle := value;
        case Odometer => odometer := value;
        case EngineHours => engineHours := value;
        case Notes => notes := value;
      }
      if name == Group {
        group, vehicle := value, "";
        lastGroup := Some(value);
        lastVehicle := None;
      }
      if name == VehicleField {
        lastVehicle := Some(value);
      }
    }

    /** `handleImages`: the chosen files are appended, the list is cut to
        five, and the previews are rebuilt. Choosing nothing changes nothing. */
    method HandleImages(files: seq<ImageFile>)
      requires Valid()
      modifies this`images, this`previews
      ensures Valid()
      ensures files == [] ==> images == old(images) && previews == old(previews)
      ensures files != [] ==> images == (old(images) + files)[..Min(|old(images)| + |files|, MaxImages)]
      ensures images[..|old(images)|] == old(images)
      ensures |images| == Min(|old(images)| + |files|, MaxImages)
    {
      if |files| == 0 {
        return;
      }
      var all := images + files;
      var nextFiles := all[..Min(|all|, MaxImages)];
      images := nextFiles;
      previews := Previews(nextFiles);
    }

    /** `removeImage(idx)`: position idx leaves both lists. */
    method RemoveImage(idx: int)
      requires Valid()
      modifies this`images, this`previews
      ensures Valid()
      ensures images == RemoveAt(old(images), idx)
      ensures previews == RemoveAt(old(previews), idx)
    {
      var nextFiles := RemoveAt(images, idx);
      var nextPreviews := RemoveAt(previews, idx);
      assert nextPreviews == Previews(nextFiles);
      images := nextFiles;
      previews := nextPreviews;
    }

    /** `validate()`: missing required fields are reported before bad
        numbers; a failure sets the error toast. */
    method Validate(isNonNegativeNumber: string -> bool) returns (ok: bool)
      modifies this`toast
      ensures group == "" || vehicle == "" || odometer == "" ==>
                !ok && toast == Some(Toast(ToastError, RequiredMessage(lang)))
      ensures group != "" && vehicle != "" && odometer != "" &&
              (!NumberOk(odometer, isNonNegativeNumber) || !NumberOk(engineHours, isNonNegativeNumber)) ==>
                !ok && toast == Some(Toast(ToastError, InvalidNumbersMessage(lang)))
      ensures ok <==> group != "" && vehicle != "" && odometer != "" &&
                      NumberOk(odometer, isNonNegativeNumber) && NumberOk(engineHours, isNonNegativeNumber)
      ensures ok ==> toast == old(toast)
    {
      if group == "" || vehicle == "" || odometer == "" {
        toast := Some(Toast(ToastError, RequiredMessage(lang)));
        return false;
      }
      if !NumberOk(odometer, isNonNegativeNumber) || !NumberOk(engineHours, isNonNegativeNumber) {
        toast := Some(Toast(ToastError, InvalidNumbersMessage(lang)));
        return false;
      }
      return true;
    }
  }

  function Min(a: int, b: int): int { if a < b then a else b }
}
