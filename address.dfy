/** Address.java: a trimmed, non-blank, value-compared delivery address. */
module AddressValue {
  import opened Outcomes
  import opened Text

  datatype Address = Address(street: string, city: string, postalCode: string, country: string)

  datatype AddressError =
    | BlankStreet      // "Street cannot be null or empty"
    | BlankCity        // "City cannot be null or empty"
    | BlankPostalCode  // "Postal code cannot be null or empty"
    | BlankCountry     // "Country cannot be null or empty"

  predicate NullOrBlank(s: Option<string>) {
    s.None? || IsBlank(s.value)
  }

  /** `Address.of` / the private constructor: each field is checked in turn, then all are stored trimmed. */
  function Of(street: Option<string>, city: Option<string>, postalCode: Option<string>, country: Option<string>)
    : (r: Result<Address, AddressError>)
    ensures r.Ok? <==> !NullOrBlank(street) && !NullOrBlank(city) && !NullOrBlank(postalCode) && !NullOrBlank(country)
    ensures NullOrBlank(street) ==> r == Err(BlankStreet)
    ensures !NullOrBlank(street) && NullOrBlank(city) ==> r == Err(BlankCity)
    ensures !NullOrBlank(street) && !NullOrBlank(city) && NullOrBlank(postalCode) ==> r == Err(BlankPostalCode)
    ensures !NullOrBlank(street) && !NullOrBlank(city) && !NullOrBlank(postalCode) && NullOrBlank(country) ==>
      r == Err(BlankCountry)
    ensures r.Ok? ==> && r.value.street == Trim(street.value) && r.value.city == Trim(city.value)
                      && r.value.postalCode == Trim(postalCode.value) && r.value.country == Trim(country.value)
    ensures r.Ok? ==> Valid(r.value)
  {
    if NullOrBlank(street) then Err(BlankStreet)
    else if NullOrBlank(city) then Err(BlankCity)
    else if NullOrBlank(postalCode) then Err(BlankPostalCode)
    else if NullOrBlank(country) then Err(BlankCountry)
    else
      TrimIdempotent(street.value);
      TrimIdempotent(city.value);
      TrimIdempotent(postalCode.value);
      TrimIdempotent(country.value);
      Ok(Address(Trim(street.value), Trim(city.value), Trim(postalCode.value), Trim(country.value)))
  }

  /** What every constructed Address satisfies: each field is non-empty and already trimmed. */
  ghost predicate Valid(a: Address) {
    && a.street != [] && Trim(a.street) == a.street
    && a.city != [] && Trim(a.city) == a.city
    && a.postalCode != [] && Trim(a.postalCode) == a.postalCode
    && a.country != [] && Trim(a.country) == a.country
  }

  /** `equals`: all four fields compared, which is equality of the model's values. */
  predicate Equals(a: Address, b: Address)
    ensures Equals(a, b) <==> a == b
  {
    a.street == b.street && a.city == b.city && a.postalCode == b.postalCode && a.country == b.country
  }

  /** `toString`, the string the batching engine groups orders by. */
  function ToString(a: Address): (r: string)
    ensures |r| >= 8 && r[..8] == "Address{"
  {
    "Address{street='" + (a.street + ("', city='" + (a.city + ("', postalCode='" + (a.postalCode
      + ("', country='" + (a.country + "'}")))))))
  }

  /** Two successful constructions give equal Addresses exactly when the four inputs agree after trimming;
      in particular inputs that differ only in surrounding whitespace give equal Addresses. */
  lemma OfEqualIffTrimmedEqual(s1: string, c1: string, p1: string, k1: string,
                               s2: string, c2: string, p2: string, k2: string)
    requires Of(Some(s1), Some(c1), Some(p1), Some(k1)).Ok?
    requires Of(Some(s2), Some(c2), Some(p2), Some(k2)).Ok?
    ensures Of(Some(s1), Some(c1), Some(p1), Some(k1)) == Of(Some(s2), Some(c2), Some(p2), Some(k2))
        <==> Trim(s1) == Trim(s2) && Trim(c1) == Trim(c2) && Trim(p1) == Trim(p2) && Trim(k1) == Trim(k2)
  {
  }

  /** Equal addresses give equal batching keys. */
  lemma EqualAddressesEqualKeys(a: Address, b: Address)
    requires Equals(a, b)
    ensures ToString(a) == ToString(b)
  {
  }
}
