/** The tenant onboarding wizard (`src/pages/Onboarding.tsx`): the form
    prefilled from a scanned document, the rent and deposit taken from the
    chosen property, and the four steps with the upload gate at the third. */
module Onboarding {
  import opened Wrappers
  import opened Strings
  import opened Js
  import opened Seqs

  /** The wizard's form: field name to text. */
  type Form = map<string, string>

  const FormKeys: seq<string> := [
    "firstName", "lastName", "email", "phone", "govtId", "profileImageUrl",
    "dateOfBirth", "propertyId", "leaseStart", "leaseEnd", "monthlyRent",
    "securityDeposit", "emergencyName", "emergencyPhone", "bankName",
    "accountNumber", "routingNumber"]

  /** Every field starts empty except the property handed over by the page
      that navigated here (`location.state?.propertyId ?? ""`). */
  function InitialForm(statePropertyId: Option<string>): (f: Form)
    ensures forall k :: k in FormKeys <==> k in f
    ensures f["propertyId"] == Coalesce(statePropertyId, "")
    ensures forall k :: k in f && k != "propertyId" ==> f[k] == ""
  {
    map k | k in FormKeys :: if k == "propertyId" then Coalesce(statePropertyId, "") else ""
  }

  /** A field's current text; a field never set reads as missing. */
  function Field(f: Form, key: string): Option<string> {
    if key in f then Some(f[key]) else None
  }

  /** `formatDob`: a day-month-year date, separated by `/` or `-`, as
      year-month-day; a missing part is written `undefined`, a missing or
      empty date gives "". */
  function FormatDob(dob: Option<string>): string {
    if !Truthy(dob) then ""
    else
      var parts := SplitOn(dob.value, {'/', '-'});
      var dd := parts[0];
      var mm := if |parts| > 1 then parts[1] else "undefined";
      var yyyy := if |parts| > 2 then parts[2] else "undefined";
      yyyy + "-" + mm + "-" + dd
  }

  predicate DateFree(s: string) {
    forall j :: 0 <= j < |s| ==> s[j] != '/' && s[j] != '-'
  }

  /** A `dd/mm/yyyy` or `dd-mm-yyyy` date comes out as `yyyy-mm-dd`. */
  lemma FormatDobReorders(dd: string, mm: string, yyyy: string, sep: char)
    requires sep == '/' || sep == '-'
    requires DateFree(dd) && DateFree(mm) && DateFree(yyyy)
    ensures FormatDob(Some(dd + [sep] + mm + [sep] + yyyy)) == yyyy + "-" + mm + "-" + dd
  {
    var parts := [dd, mm, yyyy];
    assert Join(parts, [sep]) == dd + [sep] + mm + [sep] + yyyy by {
      assert Join(parts[1..], [sep]) == mm + [sep] + yyyy by {
        assert parts[1..][1..] == [yyyy];
      }
    }
    SplitJoin(parts, sep, {'/', '-'});
  }

  /** No date, or an empty one, gives an empty date of birth. */
  lemma FormatDobEmpty()
    ensures FormatDob(None) == "" && FormatDob(Some("")) == ""
  {
  }

  /** `const [firstName, ...rest] = name.split(" ")` and `rest.join(" ")`. */
  function SplitName(name: string): (r: (string, string)) {
    var parts := SplitOn(name, {' '});
    (parts[0], Join(parts[1..], " "))
  }

  /** A name with a space is the first name, a space and the last name; a
      name without one is all first name. */
  lemma {:induction false} SplitNameRejoins(name: string)
    ensures ' ' in name ==> SplitName(name).0 + " " + SplitName(name).1 == name
    ensures ' ' !in name ==> SplitName(name) == (name, "")
    ensures ' ' !in SplitName(name).0
  {
    var parts := SplitOn(name, {' '});
    JoinSplit(name, ' ');
    var first := parts[0];
    assert forall j :: 0 <= j < |first| ==> first[j] != ' ';
    if ' ' in name {
      assert |parts| > 1;
    } else {
      SplitNone(name, {' '});
    }
  }

  /** What the scan page hands over. */
  datatype OcrData = OcrData(
    name: Option<string>,
    email: Option<string>,
    phone: Option<string>,
    govtId: Option<string>,
    dob: Option<string>,
    leaseStart: Option<string>,
    leaseEnd: Option<string>,
    rentAmount: Option<int>,
    profileImageUrl: Option<string>)

  /** The ten fields the prefill effect takes from the scan. */
  function ScannedFields(ocr: OcrData): (m: Form)
    ensures m.Keys == PrefillKeys
  {
    var name := SplitName(Or(ocr.name, ""));
    map[
      "firstName" := name.0,
      "lastName" := name.1,
      "email" := Coalesce(ocr.email, ""),
      "phone" := Coalesce(ocr.phone, ""),
      "govtId" := Coalesce(ocr.govtId, ""),
      "dateOfBirth" := FormatDob(ocr.dob),
      "leaseStart" := Coalesce(ocr.leaseStart, ""),
      "leaseEnd" := Coalesce(ocr.leaseEnd, ""),
      "monthlyRent" := if ocr.rentAmount.Some? then IntToString(ocr.rentAmount.value) else "",
      "profileImageUrl" := Coalesce(ocr.profileImageUrl, "")]
  }

  const PrefillKeys: set<string> := {
    "firstName", "lastName", "email", "phone", "govtId", "dateOfBirth",
    "leaseStart", "leaseEnd", "monthlyRent", "profileImageUrl"}

  /** The prefill effect: `{ ...prev, <scanned fields> }`. */
  function Prefill(f: Form, ocr: OcrData): (g: Form)
    ensures g.Keys == f.Keys + PrefillKeys
    ensures forall k :: k in PrefillKeys ==> g[k] == ScannedFields(ocr)[k]
    ensures forall k :: k in f && k !in PrefillKeys ==> g[k] == f[k]
  {
    f + ScannedFields(ocr)
  }

  /** The scanned name is split into first and last name at its first space. */
  lemma ScannedName(ocr: OcrData)
    ensures var m := ScannedFields(ocr);
            ' ' in Or(ocr.name, "") ==> m["firstName"] + " " + m["lastName"] == ocr.name.value
    ensures var m := ScannedFields(ocr);
            ' ' !in Or(ocr.name, "") ==> m["firstName"] == Or(ocr.name, "") && m["lastName"] == ""
  {
    SplitNameRejoins(Or(ocr.name, ""));
  }

  /** The contact fields, the lease dates and the photo are taken as scanned,
      `??` keeping an empty string; the rent is the scanned amount in decimal,
      or empty when none was scanned. */
  lemma ScannedContact(ocr: OcrData)
    ensures var m := ScannedFields(ocr);
            m["email"] == Coalesce(ocr.email, "") && m["phone"] == Coalesce(ocr.phone, "")
            && m["govtId"] == Coalesce(ocr.govtId, "") && m["dateOfBirth"] == FormatDob(ocr.dob)
    ensures var m := ScannedFields(ocr);
            m["leaseStart"] == Coalesce(ocr.leaseStart, "") && m["leaseEnd"] == Coalesce(ocr.leaseEnd, "")
            && m["profileImageUrl"] == Coalesce(ocr.profileImageUrl, "")
    ensures var m := ScannedFields(ocr);
            ocr.rentAmount.Some? ==> NumberOf(m["monthlyRent"]) == Finite(ocr.rentAmount.value)
    ensures ocr.rentAmount.None? ==> ScannedFields(ocr)["monthlyRent"] == ""
  {
    if ocr.rentAmount.Some? {
      NumberOfIntToString(ocr.rentAmount.value);
    }
  }

  /** A fetched property, as far as the autofill reads it. */
  datatype PropertyRef = PropertyRef(id: string, price: int)

  /** `properties.find(p => p.id === id)`: the first property with the id. */
  function Find(properties: seq<PropertyRef>, id: string): (r: Option<PropertyRef>)
    ensures r.Some? ==> exists k :: 0 <= k < |properties| && properties[k] == r.value && r.value.id == id
                                    && forall j :: 0 <= j < k ==> properties[j].id != id
    ensures r.None? ==> forall i :: 0 <= i < |properties| ==> properties[i].id != id
  {
    match FindIndex(properties, (p: PropertyRef) => p.id == id)
    case Some(k) => Some(properties[k])
    case None => None
  }

  /** `Math.round(price * 1.5)` for a whole price: halves round up. */
  function Deposit(price: int): (d: int)
    ensures 2 * d - 1 <= 3 * price < 2 * d + 1
  {
    (3 * price + 1) / 2
  }

  /** The rent autofill: when the property chosen is known, an empty rent
      becomes its price and an empty deposit one and a half times it. */
  function Autofill(f: Form, properties: seq<PropertyRef>): (g: Form)
    ensures g.Keys == f.Keys + (if g == f then {} else {"monthlyRent", "securityDeposit"})
    ensures forall k :: k in f && k != "monthlyRent" && k != "securityDeposit" ==> g[k] == f[k]
    ensures forall k :: k in f && f[k] != "" ==> g[k] == f[k]
  {
    var id := Field(f, "propertyId");
    if !Truthy(id) then f
    else match Find(properties, id.value)
      case None => f
      case Some(p) =>
        f["monthlyRent" := Or(Field(f, "monthlyRent"), IntToString(p.price))]
         ["securityDeposit" := Or(Field(f, "securityDeposit"), IntToString(Deposit(p.price)))]
  }

  /** Without a property, or with one not in the list, autofill does nothing;
      with one, the empty rent and deposit take its price and deposit. */
  lemma AutofillCases(f: Form, properties: seq<PropertyRef>)
    ensures !Truthy(Field(f, "propertyId")) ==> Autofill(f, properties) == f
    ensures Truthy(Field(f, "propertyId")) && Find(properties, f["propertyId"]).None? ==> Autofill(f, properties) == f
    ensures Truthy(Field(f, "propertyId")) && Find(properties, f["propertyId"]).Some? ==>
              var p := Find(properties, f["propertyId"]).value;
              var g := Autofill(f, properties);
              g["monthlyRent"] != "" && g["securityDeposit"] != ""
              && (!Truthy(Field(f, "monthlyRent")) ==> g["monthlyRent"] == IntToString(p.price))
              && (!Truthy(Field(f, "securityDeposit")) ==> g["securityDeposit"] == IntToString(Deposit(p.price)))
  {
  }

  /** Running the autofill again changes nothing more. */
  lemma AutofillIdempotent(f: Form, properties: seq<PropertyRef>)
    ensures Autofill(Autofill(f, properties), properties) == Autofill(f, properties)
  {
    var g := Autofill(f, properties);
    if g != f {
      assert Field(g, "propertyId") == Field(f, "propertyId");
      assert g["monthlyRent"] != "" && g["securityDeposit"] != "";
    }
  }

  /** `updateField`: only the named field changes. */
  function UpdateField(f: Form, field: string, value: string): (g: Form)
    ensures g.Keys == f.Keys + {field} && g[field] == value
    ensures forall k :: k in f && k != field ==> g[k] == f[k]
  {
    f[field := value]
  }

  const StepCount := 4

  /** A wizard action: Back, Continue, or a finished upload on step 3. */
  datatype Action = GoBack | GoOn | Uploaded(doc: string)

  /** The step counter and the documents uploaded so far. */
  datatype Steps = Steps(step: int, docs: seq<string>)

  /** Back is disabled on the first step; Continue is refused on step 3 until
      a document is uploaded and is not offered on the last step. */
  function Apply(s: Steps, a: Action): (t: Steps)
    ensures a.Uploaded? ==> t == Steps(s.step, s.docs + [a.doc])
    ensures a == GoBack ==> t.docs == s.docs && t.step == if s.step == 1 then 1 else s.step - 1
    ensures a == GoOn ==> t.docs == s.docs
    ensures a == GoOn && s.step < StepCount && (s.step != 3 || s.docs != []) ==> t.step == s.step + 1
    ensures a == GoOn && (s.step >= StepCount || (s.step == 3 && s.docs == [])) ==> t.step == s.step
  {
    match a
    case GoBack => if s.step == 1 then s else s.(step := s.step - 1)
    case GoOn =>
      if s.step >= StepCount then s
      else if s.step == 3 && s.docs == [] then s
      else s.(step := s.step + 1)
    case Uploaded(doc) => s.(docs := s.docs + [doc])
  }

  function Run(s: Steps, actions: seq<Action>): Steps
    decreases |actions|
  {
    if actions == [] then s else Run(Apply(s, actions[0]), actions[1..])
  }

  /** From any step in range, every run of clicks stays within steps 1 to 4. */
  lemma {:induction false} RunStaysInRange(s: Steps, actions: seq<Action>)
    requires 1 <= s.step <= StepCount
    ensures 1 <= Run(s, actions).step <= StepCount
    decreases |actions|
  {
    if actions != [] {
      RunStaysInRange(Apply(s, actions[0]), actions[1..]);
    }
  }

  /** Uploads are never lost: the documents only grow. */
  lemma {:induction false} RunKeepsDocs(s: Steps, actions: seq<Action>)
    ensures |s.docs| <= |Run(s, actions).docs| && Run(s, actions).docs[..|s.docs|] == s.docs
    decreases |actions|
  {
    if actions != [] {
      var t := Apply(s, actions[0]);
      RunKeepsDocs(t, actions[1..]);
      assert t.docs[..|s.docs|] == s.docs;
      var u := Run(t, actions[1..]);
      assert u.docs[..|s.docs|] == u.docs[..|t.docs|][..|s.docs|];
    }
  }

  /** The last step is reached only after a document has been uploaded. */
  lemma {:induction false} LastStepNeedsUpload(s: Steps, actions: seq<Action>)
    requires s.step <= 3 || s.docs != []
    ensures Run(s, actions).step == StepCount ==> Run(s, actions).docs != []
    decreases |actions|
  {
    if actions != [] {
      LastStepNeedsUpload(Apply(s, actions[0]), actions[1..]);
    }
  }

  /** The wizard's state. */
  class Wizard {
    var form: Form
    var currentStep: int
    var uploadedDocs: seq<string>
    var hasUploadedDoc: bool
    var properties: seq<PropertyRef>

    /** The step is in range and the upload flag says whether the list of
        uploads is non-empty. */
    predicate Valid()
      reads this
    {
      1 <= currentStep <= StepCount && (hasUploadedDoc <==> uploadedDocs != [])
    }

    function StepState(): Steps
      reads this
    {
      Steps(currentStep, uploadedDocs)
    }

    constructor (statePropertyId: Option<string>)
      ensures Valid() && currentStep == 1 && uploadedDocs == [] && properties == []
      ensures form == InitialForm(statePropertyId)
    {
      form := InitialForm(statePropertyId);
      currentStep, uploadedDocs, hasUploadedDoc, properties := 1, [], false, [];
    }

    /** The scan handed over, if any, prefills the form. */
    method PrefillFromOcr(ocr: Option<OcrData>)
      modifies this
      ensures form == if ocr.Some? then Prefill(old(form), ocr.value) else old(form)
      ensures currentStep == old(currentStep) && uploadedDocs == old(uploadedDocs)
      ensures hasUploadedDoc == old(hasUploadedDoc) && properties == old(properties)
    {
      if ocr.Some? {
        form := Prefill(form, ocr.value);
      }
    }

    /** The properties arrive; the autofill effect runs. */
    method PropertiesFetched(data: seq<PropertyRef>)
      modifies this
      ensures properties == data && form == Autofill(old(form), data)
      ensures currentStep == old(currentStep) && uploadedDocs == old(uploadedDocs)
      ensures hasUploadedDoc == old(hasUploadedDoc)
    {
      properties := data;
      form := Autofill(form, properties);
    }

    /** A field edited; when the property id changes, the autofill effect
        runs, since it depends on that id. */
    method Edit(field: string, value: string)
      modifies this
      ensures form == if field == "propertyId" && Field(old(form), "propertyId") != Some(value)
                      then Autofill(UpdateField(old(form), field, value), properties)
                      else UpdateField(old(form), field, value)
      ensures currentStep == old(currentStep) && uploadedDocs == old(uploadedDocs)
      ensures hasUploadedDoc == old(hasUploadedDoc) && properties == old(properties)
    {
      var changed := field == "propertyId" && Field(form, "propertyId") != Some(value);
      form := UpdateField(form, field, value);
      if changed {
        form := Autofill(form, properties);
      }
    }

    /** Back. */
    method Back()
      requires Valid()
      modifies this
      ensures Valid() && StepState() == Apply(old(StepState()), GoBack)
      ensures form == old(form) && hasUploadedDoc == old(hasUploadedDoc) && properties == old(properties)
    {
      if currentStep != 1 {
        currentStep := currentStep - 1;
      }
    }

    /** Continue: refused (with a toast) on step 3 until a document is uploaded. */
    method Continue() returns (refused: bool)
      requires Valid()
      modifies this
      ensures Valid() && StepState() == Apply(old(StepState()), GoOn)
      ensures refused <==> old(currentStep) == 3 && !hasUploadedDoc
      ensures form == old(form) && hasUploadedDoc == old(hasUploadedDoc) && properties == old(properties)
    {
      refused := false;
      if currentStep < StepCount {
        if currentStep == 3 && !hasUploadedDoc {
          refused := true;
        } else {
          currentStep := currentStep + 1;
        }
      }
    }

    /** An upload on step 3: the server's answer is appended and the flag set;
        a failed upload throws before either. */
    method Upload(response: Result<string, string>)
      requires Valid()
      modifies this
      ensures Valid()
      ensures response.Success? ==> StepState() == Apply(old(StepState()), Uploaded(response.value)) && hasUploadedDoc
      ensures response.Failure? ==> StepState() == old(StepState()) && hasUploadedDoc == old(hasUploadedDoc)
      ensures form == old(form) && properties == old(properties)
    {
      if response.Success? {
        uploadedDocs := uploadedDocs + [response.value];
        hasUploadedDoc := true;
      }
    }
  }
}
