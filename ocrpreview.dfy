/** The scan review page (`src/pages/OcrPreview.tsx`): polling the parsed
    upload, assembling the form from the server's fields and from patterns
    found in the raw text, and editing the result. */
module OcrPreview {
  import opened Wrappers
  import opened Strings
  import opened Js
  import Onboarding

  const BackendUrl := "http://localhost:8080/api"
  const UploadPath := "/upload"

  /** The leftmost position from `i` on where `matchAt` succeeds, the way a
      regular expression without the global flag searches. */
  function Scan(t: string, i: nat, matchAt: (string, nat) -> Option<string>): (r: Option<nat>)
    ensures r.Some? ==> i <= r.value <= |t| && matchAt(t, r.value).Some?
    ensures r.Some? ==> forall j :: i <= j < r.value ==> matchAt(t, j).None?
    ensures r.None? ==> forall j :: i <= j <= |t| ==> matchAt(t, j).None?
    decreases |t| + 1 - i
  {
    if i > |t| then None
    else if matchAt(t, i).Some? then Some(i)
    else Scan(t, i + 1, matchAt)
  }

  /** The group a search finds, if any. */
  function Search(t: string, matchAt: (string, nat) -> Option<string>): Option<string> {
    match Scan(t, 0, matchAt)
    case Some(i) => matchAt(t, i)
    case None => None
  }

  predicate DigitsAt(s: string, from: nat, to: nat)
    requires from <= to <= |s|
  {
    forall j :: from <= j < to ==> IsDigit(s[j])
  }

  /** `\d{4}\s\d{4}\s\d{4}`. */
  predicate GovtIdPattern(g: string) {
    |g| == 14 && DigitsAt(g, 0, 4) && IsSpace(g[4]) && DigitsAt(g, 5, 9) && IsSpace(g[9]) && DigitsAt(g, 10, 14)
  }

  function GovtIdAt(t: string, i: nat): (r: Option<string>)
    ensures r.Some? ==> GovtIdPattern(r.value) && OccursAt(t, r.value, i)
    ensures r.None? ==> !(i + 14 <= |t| && GovtIdPattern(t[i..i + 14]))
  {
    if i + 14 <= |t| && GovtIdPattern(t[i..i + 14]) then Some(t[i..i + 14]) else None
  }

  /** `\+91[-\s]?\d{10}|\d{10}`: the optional separator is tried first. */
  predicate PhonePattern(g: string) {
    (|g| == 10 && DigitsAt(g, 0, 10))
    || (|g| == 13 && g[..3] == "+91" && DigitsAt(g, 3, 13))
    || (|g| == 14 && g[..3] == "+91" && (g[3] == '-' || IsSpace(g[3])) && DigitsAt(g, 4, 14))
  }

  /** After "+91" with neither ten digits nor a separator and ten digits,
      no phone number starts at `i`. */
  lemma PhoneNoMatchAfterPrefix(t: string, i: nat)
    requires i + 3 <= |t| && t[i..i + 3] == "+91"
    requires !(i + 14 <= |t| && (t[i + 3] == '-' || IsSpace(t[i + 3])) && DigitsAt(t[i..i + 14], 4, 14))
    requires !(i + 13 <= |t| && DigitsAt(t[i..i + 13], 3, 13))
    ensures forall g :: !(PhonePattern(g) && OccursAt(t, g, i))
  {
    forall g | PhonePattern(g) && i + |g| <= |t|
      ensures t[i..i + |g|] != g
    {
      if |g| == 10 {
        assert t[i..i + |g|][0] == t[i..i + 3][0];
      } else if |g| == 14 {
        assert t[i..i + 14][3] == t[i + 3];
      }
    }
  }

  function PhoneAt(t: string, i: nat): (r: Option<string>)
    ensures r.Some? ==> PhonePattern(r.value) && OccursAt(t, r.value, i)
    ensures r.None? ==> forall g :: !(PhonePattern(g) && OccursAt(t, g, i))
  {
    if i + 3 <= |t| && t[i..i + 3] == "+91" then
      if i + 14 <= |t| && (t[i + 3] == '-' || IsSpace(t[i + 3])) && DigitsAt(t[i..i + 14], 4, 14) then
        Some(t[i..i + 14])
      else if i + 13 <= |t| && DigitsAt(t[i..i + 13], 3, 13) then
        Some(t[i..i + 13])
      else
        PhoneNoMatchAfterPrefix(t, i);
        None
    else if i + 10 <= |t| && DigitsAt(t[i..i + 10], 0, 10) then Some(t[i..i + 10])
    else None
  }

  /** Every run of `[:\s]` from position `j` on, skipped: the greedy loop
      never gives a character back, because the date after it starts with
      a digit. */
  function SkipSeparators(t: string, j: nat): (k: nat)
    ensures j <= k && (j <= |t| ==> k <= |t|)
    ensures forall m :: j <= m < k && m < |t| ==> t[m] == ':' || IsSpace(t[m])
    ensures k < |t| ==> t[k] != ':' && !IsSpace(t[k])
    decreases |t| - j
  {
    if j < |t| && (t[j] == ':' || IsSpace(t[j])) then SkipSeparators(t, j + 1) else j
  }

  /** `\d{2}[\/-]\d{2}[\/-]\d{4}`. */
  predicate DatePattern(d: string) {
    |d| == 10 && DigitsAt(d, 0, 2) && (d[2] == '/' || d[2] == '-')
    && DigitsAt(d, 3, 5) && (d[5] == '/' || d[5] == '-') && DigitsAt(d, 6, 10)
  }

  /** "DOB" in any letter case at `i`, then colons and white space, then a date. */
  predicate DobDateAt(t: string, i: nat) {
    i + 3 <= |t| && Lower(t[i..i + 3]) == "dob"
    && SkipSeparators(t, i + 3) + 10 <= |t|
    && DatePattern(t[SkipSeparators(t, i + 3)..SkipSeparators(t, i + 3) + 10])
  }

  /** `DOB[:\s]*(date)` with the `i` flag: the group is the date alone. */
  function DobAt(t: string, i: nat): (r: Option<string>)
    ensures r.Some? ==> DatePattern(r.value)
    ensures r.Some? ==> i + 3 <= |t| && Lower(t[i..i + 3]) == "dob"
                        && OccursAt(t, r.value, SkipSeparators(t, i + 3))
    ensures r.None? ==> !DobDateAt(t, i)
  {
    if i + 3 <= |t| && Lower(t[i..i + 3]) == "dob" then
      var j := SkipSeparators(t, i + 3);
      if j + 10 <= |t| && DatePattern(t[j..j + 10]) then Some(t[j..j + 10]) else None
    else None
  }

  /** The three patterns not modelled character by character (a two-word
      capitalised name, an e-mail address, a street address): what each finds
      in a text, as parameters. */
  datatype Patterns = Patterns(
    name: string -> Option<string>,
    email: string -> Option<string>,
    address: string -> Option<string>)

  /** `parsed.field || rawText.match(pattern)?.[1] || ""`. */
  function Pick(server: Option<string>, found: Option<string>): (r: string)
    ensures Truthy(server) ==> r == server.value
    ensures !Truthy(server) && Truthy(found) ==> r == found.value
    ensures !Truthy(server) && !Truthy(found) ==> r == ""
  {
    Or(server, Or(found, ""))
  }

  /** The review form (`ExtractedData`); a missing field is `undefined`. */
  datatype Extracted = Extracted(
    name: Option<string>,
    email: Option<string>,
    phone: Option<string>,
    govtId: Option<string>,
    dob: Option<string>,
    address: Option<string>,
    rentAmount: Option<Value>,
    leaseStart: Option<string>,
    leaseEnd: Option<string>,
    profileImageUrl: Option<string>)

  const Empty := Extracted(None, None, None, None, None, None, None, None, None, None)

  /** `parsed.rawText ?? ""`. */
  function RawText(parsed: Object): string {
    Coalesce(StrField(parsed, "rawText"), "")
  }

  /** The form assembled from a non-empty parse. */
  function Extract(parsed: Object, patterns: Patterns): (e: Extracted)
    ensures e.leaseStart == Some("") && e.leaseEnd == Some("")
    ensures e.rentAmount == (if "rentAmount" in parsed then Some(parsed["rentAmount"]) else None)
    ensures e.profileImageUrl.Some? <==> Truthy(StrField(parsed, "profileImageUrl"))
    ensures e.profileImageUrl.Some? ==> e.profileImageUrl.value == StrField(parsed, "profileImageUrl").value
  {
    var raw := RawText(parsed);
    Extracted(
      Some(Pick(StrField(parsed, "name"), patterns.name(raw))),
      Some(Pick(StrField(parsed, "email"), patterns.email(raw))),
      Some(Pick(StrField(parsed, "phone"), Search(raw, PhoneAt))),
      Some(Pick(StrField(parsed, "govtId"), Search(raw, GovtIdAt))),
      Some(Pick(StrField(parsed, "dob"), Search(raw, DobAt))),
      Some(Pick(StrField(parsed, "address"), patterns.address(raw))),
      if "rentAmount" in parsed then Some(parsed["rentAmount"]) else None,
      Some(""),
      Some(""),
      if Truthy(StrField(parsed, "profileImageUrl")) then StrField(parsed, "profileImageUrl") else None)
  }

  /** What a pattern field holds: the server's non-empty value; else the
      first match in the raw text, which fits the pattern and no earlier
      position matches; else "", and then nothing in the raw text matches. */
  predicate FieldFromScan(v: string, server: Option<string>, raw: string,
                          matchAt: (string, nat) -> Option<string>, pattern: string -> bool)
  {
    (Truthy(server) ==> v == server.value)
    && (!Truthy(server) && v != "" ==>
          pattern(v) && exists i | 0 <= i <= |raw| :: matchAt(raw, i) == Some(v)
                                                   && forall j :: 0 <= j < i ==> matchAt(raw, j).None?)
    && (!Truthy(server) && v == "" ==> forall i :: 0 <= i <= |raw| ==> matchAt(raw, i).None?)
  }

  lemma PickScanned(server: Option<string>, raw: string,
                    matchAt: (string, nat) -> Option<string>, pattern: string -> bool)
    requires forall t, i, g :: matchAt(t, i) == Some(g) ==> pattern(g) && g != ""
    ensures FieldFromScan(Pick(server, Search(raw, matchAt)), server, raw, matchAt, pattern)
  {
    var v := Pick(server, Search(raw, matchAt));
    var r := Scan(raw, 0, matchAt);
    if !Truthy(server) && v != "" {
      var i := r.value;
      assert matchAt(raw, i) == Some(v);
    }
  }

  /** The government id: server value, else three 4-digit groups found leftmost. */
  lemma ExtractGovtId(parsed: Object, patterns: Patterns)
    ensures FieldFromScan(Extract(parsed, patterns).govtId.value, StrField(parsed, "govtId"),
                          RawText(parsed), GovtIdAt, GovtIdPattern)
  {
    PickScanned(StrField(parsed, "govtId"), RawText(parsed), GovtIdAt, GovtIdPattern);
  }

  /** The phone: server value, else ten digits, optionally after `+91` and a
      `-` or white space, found leftmost. */
  lemma ExtractPhone(parsed: Object, patterns: Patterns)
    ensures FieldFromScan(Extract(parsed, patterns).phone.value, StrField(parsed, "phone"),
                          RawText(parsed), PhoneAt, PhonePattern)
  {
    PickScanned(StrField(parsed, "phone"), RawText(parsed), PhoneAt, PhonePattern);
  }

  /** An empty phone, with no server value, means that no phone number
      occurs anywhere in the raw text. */
  lemma NoPhoneInText(parsed: Object, patterns: Patterns)
    requires !Truthy(StrField(parsed, "phone")) && Extract(parsed, patterns).phone == Some("")
    ensures forall i, g :: 0 <= i <= |RawText(parsed)| ==> !(PhonePattern(g) && OccursAt(RawText(parsed), g, i))
  {
    ExtractPhone(parsed, patterns);
    forall i, g | 0 <= i <= |RawText(parsed)|
      ensures !(PhonePattern(g) && OccursAt(RawText(parsed), g, i))
    {
      assert PhoneAt(RawText(parsed), i).None?;
    }
  }

  /** The date of birth: server value, else a date after "DOB" in any letter case. */
  lemma ExtractDob(parsed: Object, patterns: Patterns)
    ensures FieldFromScan(Extract(parsed, patterns).dob.value, StrField(parsed, "dob"),
                          RawText(parsed), DobAt, DatePattern)
  {
    PickScanned(StrField(parsed, "dob"), RawText(parsed), DobAt, DatePattern);
  }

  /** An empty date of birth, with no server value, means that no "DOB" in
      the raw text is followed, past its colons and white space, by a date. */
  lemma NoDobInText(parsed: Object, patterns: Patterns)
    requires !Truthy(StrField(parsed, "dob")) && Extract(parsed, patterns).dob == Some("")
    ensures forall i :: 0 <= i <= |RawText(parsed)| ==> !DobDateAt(RawText(parsed), i)
  {
    ExtractDob(parsed, patterns);
    forall i | 0 <= i <= |RawText(parsed)|
      ensures !DobDateAt(RawText(parsed), i)
    {
      assert DobAt(RawText(parsed), i).None?;
    }
  }

  /** A field taken from the server, else from a match, else "": the
      server's value when it is a non-empty string; otherwise the match when
      it is non-empty; otherwise "". */
  predicate Precedence(v: Option<string>, server: Option<string>, found: Option<string>) {
    (Truthy(server) ==> v == Some(server.value))
    && (!Truthy(server) && Truthy(found) ==> v == Some(found.value))
    && (!Truthy(server) && !Truthy(found) ==> v == Some(""))
  }

  /** The other three fields follow that precedence with their patterns. */
  lemma ExtractByPattern(parsed: Object, patterns: Patterns)
    ensures var e := Extract(parsed, patterns);
            var raw := RawText(parsed);
            Precedence(e.name, StrField(parsed, "name"), patterns.name(raw))
            && Precedence(e.email, StrField(parsed, "email"), patterns.email(raw))
            && Precedence(e.address, StrField(parsed, "address"), patterns.address(raw))
  {
  }

  /** A date the scan finds splits on its two separators into day, month and year. */
  lemma DateSplits(d: string)
    requires DatePattern(d)
    ensures SplitOn(d, {'/', '-'}) == [d[0..2], d[3..5], d[6..10]]
  {
    var dd, mm, yyyy := d[0..2], d[3..5], d[6..10];
    var seps := {'/', '-'};
    assert forall j :: 0 <= j < |dd| ==> dd[j] == d[j];
    assert forall j :: 0 <= j < |mm| ==> mm[j] == d[3 + j];
    assert forall j :: 0 <= j < |yyyy| ==> yyyy[j] == d[6 + j];
    var back := mm + [d[5]] + yyyy;
    assert d == dd + [d[2]] + back;
    SplitAtSeparator(dd, d[2], back, seps);
    SplitAtSeparator(mm, d[5], yyyy, seps);
    SplitNone(yyyy, seps);
  }

  /** The date of birth a scan finds comes out of the onboarding date
      formatting as year-month-day, whichever separators it uses. */
  lemma ScannedDobFormats(d: string)
    requires DatePattern(d)
    ensures Onboarding.FormatDob(Some(d)) == d[6..10] + "-" + d[3..5] + "-" + d[0..2]
  {
    DateSplits(d);
  }

  /** What one poll of the parse endpoint leads to. */
  datatype Poll = StillProcessing | Done(data: Extracted) | Failed

  /** A `null` or empty parse means the scan is still running; a non-empty
      one is assembled; a failed request ends the polling. */
  function PollOutcome(response: Result<Option<Object>, string>, patterns: Patterns): (p: Poll)
    ensures p == StillProcessing <==> response.Success? && (response.value.None? || response.value.value == map[])
    ensures p == Failed <==> response.Failure?
    ensures p.Done? ==> response.Success? && response.value.Some?
                        && p.data == Extract(response.value.value, patterns)
  {
    match response
    case Failure(_) => Failed
    case Success(None) => StillProcessing
    case Success(Some(parsed)) => if parsed == map[] then StillProcessing else Done(Extract(parsed, patterns))
  }

  /** The editable fields of the review form. */
  datatype FieldName = Name | Email | Phone | GovtId | Address | LeaseStart | LeaseEnd

  /** `updateField`: the named field set, starting from an empty form when
      there is none yet. */
  function UpdateField(prev: Option<Extracted>, field: FieldName, value: string): (e: Extracted)
    ensures FieldValue(e, field) == Some(value)
    ensures var b := if prev.Some? then prev.value else Empty;
            && (forall f :: f != field ==> FieldValue(e, f) == FieldValue(b, f))
            && e.dob == b.dob && e.rentAmount == b.rentAmount && e.profileImageUrl == b.profileImageUrl
  {
    var b := if prev.Some? then prev.value else Empty;
    match field
    case Name => b.(name := Some(value))
    case Email => b.(email := Some(value))
    case Phone => b.(phone := Some(value))
    case GovtId => b.(govtId := Some(value))
    case Address => b.(address := Some(value))
    case LeaseStart => b.(leaseStart := Some(value))
    case LeaseEnd => b.(leaseEnd := Some(value))
  }

  /** `FieldValue(e, f)`: the text the review form shows for a field. */
  function FieldValue(e: Extracted, f: FieldName): Option<string> {
    match f
    case Name => e.name
    case Email => e.email
    case Phone => e.phone
    case GovtId => e.govtId
    case Address => e.address
    case LeaseStart => e.leaseStart
    case LeaseEnd => e.leaseEnd
  }

  /** An edit shows the new text in its field and leaves every other field,
      the rent and the photo as they were. */
  lemma UpdateFieldOnly(prev: Extracted, field: FieldName, value: string)
    ensures FieldValue(UpdateField(Some(prev), field, value), field) == Some(value)
    ensures forall g :: g != field ==> FieldValue(UpdateField(Some(prev), field, value), g) == FieldValue(prev, g)
    ensures UpdateField(Some(prev), field, value).rentAmount == prev.rentAmount
    ensures UpdateField(Some(prev), field, value).profileImageUrl == prev.profileImageUrl
  {
  }

  /** The first edit before any form arrived gives a form holding that field
      alone. */
  lemma UpdateFieldFromEmpty(field: FieldName, value: string)
    ensures FieldValue(UpdateField(None, field, value), field) == Some(value)
    ensures forall g :: g != field ==> FieldValue(UpdateField(None, field, value), g) == None
    ensures UpdateField(None, field, value).dob == None
    ensures UpdateField(None, field, value).rentAmount == None
    ensures UpdateField(None, field, value).profileImageUrl == None
  {
  }

  /** The photo: the backend address followed by the stored path, when there is one. */
  function PhotoUrl(e: Extracted): (url: Option<string>)
    ensures url.Some? <==> Truthy(e.profileImageUrl)
    ensures url.Some? ==> StartsWith(url.value, BackendUrl) && url.value[|BackendUrl|..] == e.profileImageUrl.value
  {
    if Truthy(e.profileImageUrl) then Some(BackendUrl + e.profileImageUrl.value) else None
  }

  /** The polling effect's state. */
  class OcrPoller {
    var formData: Option<Extracted>
    var loading: bool
    var polling: bool
    var redirect: Option<string>

    constructor ()
      ensures formData == None && loading && !polling && redirect == None
    {
      formData, loading, polling, redirect := None, true, false, None;
    }

    /** The effect starts: without an upload id the page sends the user back
        to the upload page and never polls. */
    method Start(uploadId: Option<string>)
      modifies this
      ensures !Truthy(uploadId) ==> redirect == Some(UploadPath) && !polling
      ensures Truthy(uploadId) ==> redirect == old(redirect) && polling
      ensures formData == old(formData) && loading == old(loading)
    {
      if !Truthy(uploadId) {
        redirect := Some(UploadPath);
        polling := false;
      } else {
        polling := true;
      }
    }

    /** One poll answered while the interval runs. */
    method Tick(response: Result<Option<Object>, string>, patterns: Patterns)
      requires polling
      modifies this
      ensures PollOutcome(response, patterns) == StillProcessing ==>
                formData == old(formData) && loading == old(loading) && polling
      ensures PollOutcome(response, patterns) == Failed ==>
                formData == old(formData) && !loading && !polling
      ensures PollOutcome(response, patterns).Done? ==>
                formData == Some(PollOutcome(response, patterns).data) && !loading && !polling
      ensures redirect == old(redirect)
    {
      match PollOutcome(response, patterns)
      case StillProcessing =>
      case Failed =>
        polling := false;
        loading := false;
      case Done(data) =>
        polling := false;
        loading := false;
        formData := Some(data);
    }

    /** An edit on the review form. */
    method Edit(field: FieldName, value: string)
      modifies this
      ensures formData == Some(UpdateField(old(formData), field, value))
      ensures loading == old(loading) && polling == old(polling) && redirect == old(redirect)
    {
      formData := Some(UpdateField(formData, field, value));
    }
  }
}
