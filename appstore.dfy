/** The in-memory store (`src/store/appStore.ts`): tenants, properties and
    payments, each only ever appended to. */
module AppStore {
  import opened Wrappers
  import opened Strings
  import opened Js

  const DefaultProperty := "Assigned Property"

  /** The fields of a new tenant's form the store reads. */
  datatype TenantData = TenantData(
    firstName: Option<string>,
    lastName: Option<string>,
    monthlyRent: Option<string>,
    propertyName: Option<string>,
    leaseStart: Option<string>)

  /** The payment record the store creates for a new tenant. */
  datatype StorePayment = StorePayment(
    id: int,
    tenant: string,
    amount: NumberValue,
    property: string,
    status: string,
    dueDate: Option<string>,
    paidDate: Option<string>)

  /** `Number(data.monthlyRent)`; `Number(undefined)` is `NaN`. */
  function RentAmount(monthlyRent: Option<string>): (v: NumberValue)
    ensures monthlyRent.None? ==> v == NaN
    ensures monthlyRent == Some("") ==> v == Finite(0)
  {
    if monthlyRent.Some? then NumberOf(monthlyRent.value) else NaN
  }

  /** A rent typed as an integer becomes that amount. */
  lemma RentOfInteger(n: int)
    ensures RentAmount(Some(IntToString(n))) == Finite(n)
  {
    NumberOfIntToString(n);
  }

  /** The payment `addTenant` appends: due, unpaid, due at the lease start,
      named after the tenant, for the given property or "Assigned Property". */
  function NewPayment(data: TenantData, now: int): (p: StorePayment)
    ensures p.id == now && p.status == "due" && p.paidDate == None
    ensures p.dueDate == data.leaseStart && p.amount == RentAmount(data.monthlyRent)
    ensures p.tenant == TemplateText(data.firstName) + " " + TemplateText(data.lastName)
    ensures Truthy(data.propertyName) ==> p.property == data.propertyName.value
    ensures !Truthy(data.propertyName) ==> p.property == DefaultProperty
  {
    StorePayment(now,
                 TemplateText(data.firstName) + " " + TemplateText(data.lastName),
                 RentAmount(data.monthlyRent),
                 Or(data.propertyName, DefaultProperty),
                 "due",
                 data.leaseStart,
                 None)
  }

  /** The store; a property is kept as the object it was given. */
  class Store {
    var tenants: seq<TenantData>
    var properties: seq<Object>
    var payments: seq<StorePayment>

    constructor ()
      ensures tenants == [] && properties == [] && payments == []
    {
      tenants, properties, payments := [], [], [];
    }

    /** `addTenant`; `now` is `Date.now()`. */
    method AddTenant(data: TenantData, now: int)
      modifies this
      ensures tenants == old(tenants) + [data]
      ensures payments == old(payments) + [NewPayment(data, now)]
      ensures properties == old(properties)
    {
      tenants := tenants + [data];
      payments := payments + [NewPayment(data, now)];
    }

    /** `addProperty`. */
    method AddProperty(data: Object)
      modifies this
      ensures properties == old(properties) + [data]
      ensures tenants == old(tenants) && payments == old(payments)
    {
      properties := properties + [data];
    }
  }
}
