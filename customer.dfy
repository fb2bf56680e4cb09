/** `getCustomer`: the logged-in customer as a flat profile, or the empty array for a guest. */
module CustomerData {
  import opened Php

  /** The session's customer with the one field of its default billing address the profile
      reads. `firstLogin` is passed through untouched, whatever the framework returns. */
  datatype Customer = Customer(
    id: string,
    firstName: string,
    lastName: string,
    email: string,
    firstLogin: Value,
    billingPhone: Option<string>)

  const ProfileKeys: set<string> := {"id", "firstName", "lastName", "email", "country", "signedUp"}

  /** The profile array. `country` holds the session's currency ISO code, as the subscriber
      fills it. */
  function Profile(customer: Option<Customer>, currencyIso: string): (r: map<string, Value>)
    ensures customer.None? ==> r == map[]
    ensures customer.Some? ==> r.Keys == ProfileKeys + (if "phoneNumber" in r then {"phoneNumber"} else {})
    ensures "phoneNumber" in r <==> customer.Some? && customer.value.billingPhone.Some? && customer.value.billingPhone.value != ""
    ensures "phoneNumber" in r ==> r["phoneNumber"] == Str(customer.value.billingPhone.value)
    ensures customer.Some? ==> r["id"] == Str(customer.value.id) && r["country"] == Str(currencyIso)
    ensures customer.Some? ==> r["signedUp"] == customer.value.firstLogin
    ensures customer.Some? ==>
      && r["firstName"] == Str(customer.value.firstName)
      && r["lastName"] == Str(customer.value.lastName)
      && r["email"] == Str(customer.value.email)
    ensures Truthy(Assoc(r)) <==> customer.Some?
  {
    match customer
    case None => map[]
    case Some(user) =>
      var base := map["id" := Str(user.id), "firstName" := Str(user.firstName),
                       "lastName" := Str(user.lastName), "email" := Str(user.email),
                       "country" := Str(currencyIso), "signedUp" := user.firstLogin];
      if !LooselyNull(FromNullable(user.billingPhone)) then base["phoneNumber" := FromNullable(user.billingPhone)]
      else base
  }

  /** Builds the profile the way the subscriber does: start empty, fill the fixed fields for a
      customer, then add the phone number when the billing address has one. */
  method GetCustomer(customer: Option<Customer>, currencyIso: string) returns (r: map<string, Value>)
    ensures r == Profile(customer, currencyIso)
  {
    r := map[];
    if customer.Some? {
      var user := customer.value;
      r := map["id" := Str(user.id), "firstName" := Str(user.firstName),
               "lastName" := Str(user.lastName), "email" := Str(user.email),
               "country" := Str(currencyIso), "signedUp" := user.firstLogin];
      if !LooselyNull(FromNullable(user.billingPhone)) {
        r := r["phoneNumber" := FromNullable(user.billingPhone)];
      }
    }
  }
}
