/** The tenants page (`src/pages/Tenants.tsx`): the search over names and
    e-mail addresses, the status badge colour and the avatar address. */
module Tenants {
  import opened Wrappers
  import opened Strings
  import opened Js
  import opened Seqs
  import Payments

  const BackendUrl := "http://localhost:8080/api"

  /** The fields of a fetched tenant the page reads. */
  datatype Tenant = Tenant(
    id: string,
    firstName: Option<string>,
    lastName: Option<string>,
    email: Option<string>,
    profileImageUrl: Option<string>)

  /** `${firstName} ${lastName}`. */
  function FullName(t: Tenant): string {
    TemplateText(t.firstName) + " " + TemplateText(t.lastName)
  }

  /** The search: the lower-cased full name, or the lower-cased e-mail when
      there is one, holds the lower-cased search. */
  predicate MatchesSearch(t: Tenant, search: string) {
    Contains(Lower(FullName(t)), Lower(search))
    || (t.email.Some? && Contains(Lower(t.email.value), Lower(search)))
  }

  /** `filteredTenants`. */
  function FilteredTenants(tenants: seq<Tenant>, search: string): (r: seq<Tenant>)
    ensures IsSubsequence(r, tenants)
    ensures forall t :: t in r <==> t in tenants && MatchesSearch(t, search)
  {
    var keep := (t: Tenant) => MatchesSearch(t, search);
    FilterIsSubsequence(tenants, keep);
    FilterMembershipAll(tenants, keep);
    Filter(tenants, keep)
  }

  /** An empty search keeps every tenant, in order. */
  lemma EmptySearchKeepsAll(tenants: seq<Tenant>)
    ensures FilteredTenants(tenants, "") == tenants
  {
    var keep := (t: Tenant) => MatchesSearch(t, "");
    forall i | 0 <= i < |tenants|
      ensures keep(tenants[i])
    {
      ContainsEmpty(Lower(FullName(tenants[i])));
    }
    FilterKeepsAll(tenants, keep);
  }

  /** The search ignores letter case on both sides. */
  lemma SearchIgnoresCase(t: Tenant, search: string)
    ensures MatchesSearch(t, Lower(search)) == MatchesSearch(t, search)
  {
    assert Lower(Lower(search)) == Lower(search);
  }

  /** A tenant whose first name holds the search is found. */
  lemma FirstNameFound(t: Tenant, search: string)
    requires t.firstName.Some? && Contains(Lower(t.firstName.value), Lower(search))
    ensures MatchesSearch(t, search)
  {
    LowerConcat(t.firstName.value, " " + TemplateText(t.lastName));
    assert FullName(t) == t.firstName.value + (" " + TemplateText(t.lastName));
    ContainsInLeft(Lower(t.firstName.value), Lower(" " + TemplateText(t.lastName)), Lower(search));
  }

  const SuccessClass := "bg-success/10 text-success border-success/30"
  const WarningClass := "bg-warning/10 text-warning border-warning/30"
  const DestructiveClass := "bg-destructive/10 text-destructive border-destructive/30"
  const MutedClass := "bg-muted text-muted-foreground"

  /** `getStatusColor`: tenant statuses in capitals, payment statuses in
      capitals or lower case. */
  function StatusColor(status: string): (c: string)
    ensures c == SuccessClass <==> status in {"ACTIVE", "PAID", "paid"}
    ensures c == WarningClass <==> status in {"INACTIVE", "DUE", "due"}
    ensures c == DestructiveClass <==> status in {"OVERDUE", "overdue"}
    ensures c == MutedClass <==> status !in {"ACTIVE", "PAID", "paid", "INACTIVE", "DUE", "due", "OVERDUE", "overdue"}
  {
    match status
    case "ACTIVE" => SuccessClass
    case "INACTIVE" => WarningClass
    case "PAID" => SuccessClass
    case "paid" => SuccessClass
    case "DUE" => WarningClass
    case "due" => WarningClass
    case "OVERDUE" => DestructiveClass
    case "overdue" => DestructiveClass
    case _ => MutedClass
  }

  /** Lower-case tenant statuses are not recognised. */
  lemma LowerTenantStatusMuted()
    ensures StatusColor("active") == MutedClass && StatusColor("inactive") == MutedClass
  {
  }

  /** Every payment status, as the payments page spells it, gets its own colour:
      paid success, due warning, overdue destructive. */
  lemma PaymentStatusColors(s: Payments.Status)
    ensures StatusColor(Payments.StatusName(s)) ==
              match s
              case Paid => SuccessClass
              case Due => WarningClass
              case Overdue => DestructiveClass
  {
  }

  /** The avatar image: the backend address followed by the stored path, or
      no image at all when the path is missing or empty. */
  function AvatarUrl(t: Tenant): (url: Option<string>)
    ensures url.Some? <==> Truthy(t.profileImageUrl)
    ensures url.Some? ==> StartsWith(url.value, BackendUrl) && url.value[|BackendUrl|..] == t.profileImageUrl.value
  {
    if Truthy(t.profileImageUrl) then Some(BackendUrl + t.profileImageUrl.value) else None
  }
}
