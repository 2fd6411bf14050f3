/** The new-property form (`src/pages/AddProperty.tsx`): the amenity
    checkboxes, the image choice and the submit handler's checks, calls and
    outcome. */
module AddProperty {
  import opened Wrappers
  import opened Js
  import opened Seqs

  const MissingFieldsAlert := "Please fill all required fields"
  const MissingImageAlert := "Please select a property image"
  const CreateFailedAlert := "Failed to create property"
  const PropertiesPath := "/properties"

  /** `toggleAmenity`: a present tag is removed everywhere, an absent one appended. */
  function ToggleAmenity(tags: seq<string>, tag: string): (r: seq<string>)
    ensures tag !in tags ==> r == tags + [tag]
    ensures tag in tags ==> tag !in r && IsSubsequence(r, tags)
    ensures tag in tags ==> forall t :: t != tag ==> (t in r <==> t in tags)
  {
    if tag in tags then
      var other := (t: string) => t != tag;
      FilterIsSubsequence(tags, other);
      FilterMembershipAll(tags, other);
      Filter(tags, other)
    else tags + [tag]
  }

  /** Checking an absent amenity and unchecking it again restores the list. */
  lemma ToggleTwice(tags: seq<string>, tag: string)
    requires tag !in tags
    ensures ToggleAmenity(ToggleAmenity(tags, tag), tag) == tags
  {
    var other := (t: string) => t != tag;
    var added := tags + [tag];
    assert Filter(added, other) == Filter(tags, other) + Filter([tag], other) by {
      FilterAppend(tags, [tag], other);
    }
    assert Filter([tag], other) == [] by {
      assert [tag][1..] == [];
    }
    FilterKeepsAll(tags, other);
  }

  /** A chosen image file; only its identity matters here. */
  datatype ImageFile = ImageFile(name: string)

  /** The form fields. */
  datatype Form = Form(title: string, address: string, bhk: int, price: int,
                       tags: seq<string>, available: bool, imageFile: Option<ImageFile>)

  const InitialForm := Form("", "", 1, 0, [], true, None)

  /** What the submit handler's two early checks decide, in their order. */
  datatype Check = MissingFields | MissingImage | Proceed(image: ImageFile)

  function SubmitCheck(f: Form): (c: Check)
    ensures c == MissingFields <==> f.title == "" || f.address == "" || f.price <= 0
    ensures c == MissingImage <==> f.title != "" && f.address != "" && f.price > 0 && f.imageFile.None?
    ensures c.Proceed? ==> f.imageFile == Some(c.image)
  {
    if f.title == "" || f.address == "" || f.price <= 0 then MissingFields
    else if f.imageFile.None? then MissingImage
    else Proceed(f.imageFile.value)
  }

  /** The untouched form is refused for its fields, before the image is looked at. */
  lemma InitialFormRefused()
    ensures SubmitCheck(InitialForm) == MissingFields
  {
  }

  /** The property the form creates. */
  datatype Payload = Payload(title: string, address: string, bhk: int, price: int,
                             images: seq<string>, tags: seq<string>, available: bool)

  /** The body of the create call: the form's fields and the uploaded image
      as the only image. */
  function PayloadOf(f: Form, imageUrl: string): (p: Payload)
    ensures p.images == [imageUrl]
    ensures p.title == f.title && p.address == f.address && p.bhk == f.bhk && p.price == f.price
    ensures p.tags == f.tags && p.available == f.available
  {
    Payload(f.title, f.address, f.bhk, f.price, [imageUrl], f.tags, f.available)
  }

  /** The calls the handler makes, in order. */
  datatype Call = UploadImage(file: ImageFile) | CreateProperty(payload: Payload)

  /** How a submit ends. */
  datatype Outcome = Alert(message: string) | Navigate(path: string)

  /** The message of the `TypeError` thrown by calling a method the object
      does not have. */
  const UndefinedUploadError := "apiClient.uploadPropertyImage is not a function"

  /** `err.message || "Failed to create property"`. */
  function FailureAlert(message: Option<string>): (text: string)
    ensures Truthy(message) ==> text == message.value
    ensures !Truthy(message) ==> text == CreateFailedAlert
  {
    Or(message, CreateFailedAlert)
  }

  /** The page's state. */
  class AddPropertyPage {
    var form: Form
    var preview: Option<string>
    var loading: bool

    constructor ()
      ensures form == InitialForm && preview == None && !loading
    {
      form, preview, loading := InitialForm, None, false;
    }

    /** An amenity checkbox. */
    method ToggleTag(tag: string)
      modifies this
      ensures form == old(form).(tags := ToggleAmenity(old(form).tags, tag))
      ensures preview == old(preview) && loading == old(loading)
    {
      form := form.(tags := ToggleAmenity(form.tags, tag));
    }

    /** `handleImageChange`: no file changes nothing; a file is kept with its
        preview address, which the browser makes (a parameter here). */
    method ImageChange(file: Option<ImageFile>, objectUrl: string)
      modifies this
      ensures file.None? ==> form == old(form) && preview == old(preview)
      ensures file.Some? ==> form == old(form).(imageFile := file) && preview == Some(objectUrl)
      ensures loading == old(loading)
    {
      if file.Some? {
        form := form.(imageFile := file);
        preview := Some(objectUrl);
      }
    }

    /** `handleSubmit`. The image upload and the create call are the
        `uploaded` and `created` parameters: each succeeds or fails with an
        optional message. A refused form makes no call; a call made always
        ends with `loading` false. */
    method Submit(uploaded: Result<string, Option<string>>, created: Result<(), Option<string>>)
      returns (calls: seq<Call>, outcome: Outcome)
      modifies this
      ensures SubmitCheck(old(form)) == MissingFields ==>
                calls == [] && outcome == Alert(MissingFieldsAlert) && loading == old(loading)
      ensures SubmitCheck(old(form)) == MissingImage ==>
                calls == [] && outcome == Alert(MissingImageAlert) && loading == old(loading)
      ensures SubmitCheck(old(form)).Proceed? ==> !loading && |calls| >= 1 && calls[0] == UploadImage(SubmitCheck(old(form)).image)
      ensures SubmitCheck(old(form)).Proceed? && uploaded.Failure? ==>
                calls == [UploadImage(SubmitCheck(old(form)).image)] && outcome == Alert(FailureAlert(uploaded.error))
      ensures SubmitCheck(old(form)).Proceed? && uploaded.Success? ==>
                calls == [UploadImage(SubmitCheck(old(form)).image), CreateProperty(PayloadOf(old(form), uploaded.value))]
      ensures SubmitCheck(old(form)).Proceed? && uploaded.Success? && created.Failure? ==>
                outcome == Alert(FailureAlert(created.error))
      ensures SubmitCheck(old(form)).Proceed? && uploaded.Success? && created.Success? ==>
                outcome == Navigate(PropertiesPath)
      ensures form == old(form) && preview == old(preview)
    {
      match SubmitCheck(form)
      case MissingFields =>
        calls, outcome := [], Alert(MissingFieldsAlert);
      case MissingImage =>
        calls, outcome := [], Alert(MissingImageAlert);
      case Proceed(image) =>
        loading := true;
        calls := [UploadImage(image)];
        if uploaded.Failure? {
          outcome := Alert(FailureAlert(uploaded.error));
        } else {
          calls := calls + [CreateProperty(PayloadOf(form, uploaded.value))];
          if created.Failure? {
            outcome := Alert(FailureAlert(created.error));
          } else {
            outcome := Navigate(PropertiesPath);
          }
        }
        loading := false;
    }

    /** `handleSubmit` as the repository ships it. `apiClient` defines no
        `uploadPropertyImage`, so calling it throws a `TypeError` inside the
        `try`: a form that passes both checks always ends in that error's
        alert, with no create call and `loading` false. */
    method SubmitAsShipped() returns (calls: seq<Call>, outcome: Outcome)
      modifies this
      ensures SubmitCheck(old(form)).Proceed? ==>
                calls == [UploadImage(SubmitCheck(old(form)).image)] && outcome == Alert(UndefinedUploadError) && !loading
      ensures !SubmitCheck(old(form)).Proceed? ==> calls == [] && loading == old(loading)
      ensures form == old(form) && preview == old(preview)
    {
      calls, outcome := Submit(Failure(Some(UndefinedUploadError)), Success(()));
    }
  }
}
