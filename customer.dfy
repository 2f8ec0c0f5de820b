/** The customer-details record edited by the form's inputs, and the nested
    payload the form hands to the SDK's `addCustomerInformation`. */
module Customer {

  /** The seven input names of the customer-details form. */
  datatype Field = Email | PhoneCountryCode | PhoneNumber | AddressCountryCode | AddressLine1 | City | PostalCode

  datatype CustomerDetails = CustomerDetails(
    email: string,
    phoneCountryCode: string,
    phoneNumber: string,
    addressCountryCode: string,
    addressLine1: string,
    city: string,
    postalCode: string)

  const EmptyDetails := CustomerDetails("", "", "", "", "", "", "")

  datatype Phone = Phone(countryCode: string, number: string)
  datatype BillingAddress = BillingAddress(city: string, postalCode: string, countryCode: string, addressLine1: string)
  datatype CustomerPayload = CustomerPayload(email: string, phone: Phone, billingAddress: BillingAddress)

  /** The value of the input named `f`. */
  function Get(d: CustomerDetails, f: Field): string
  {
    match f
    case Email => d.email
    case PhoneCountryCode => d.phoneCountryCode
    case PhoneNumber => d.phoneNumber
    case AddressCountryCode => d.addressCountryCode
    case AddressLine1 => d.addressLine1
    case City => d.city
    case PostalCode => d.postalCode
  }

  /** The record after the input named `f` reports `value`: `{ ...prev, [name]: value }`. */
  function WithField(d: CustomerDetails, f: Field, value: string): (r: CustomerDetails)
    ensures Get(r, f) == value
    ensures forall g :: g != f ==> Get(r, g) == Get(d, g)
  {
    match f
    case Email => d.(email := value)
    case PhoneCountryCode => d.(phoneCountryCode := value)
    case PhoneNumber => d.(phoneNumber := value)
    case AddressCountryCode => d.(addressCountryCode := value)
    case AddressLine1 => d.(addressLine1 := value)
    case City => d.(city := value)
    case PostalCode => d.(postalCode := value)
  }

  /** Two records that agree on every input are the same record. */
  lemma DetailsExtensional(a: CustomerDetails, b: CustomerDetails)
    requires forall f :: Get(a, f) == Get(b, f)
    ensures a == b
  {
    assert Get(a, Email) == Get(b, Email);
    assert Get(a, PhoneCountryCode) == Get(b, PhoneCountryCode);
    assert Get(a, PhoneNumber) == Get(b, PhoneNumber);
    assert Get(a, AddressCountryCode) == Get(b, AddressCountryCode);
    assert Get(a, AddressLine1) == Get(b, AddressLine1);
    assert Get(a, City) == Get(b, City);
    assert Get(a, PostalCode) == Get(b, PostalCode);
  }

  /** An input change is determined by what it promises: the named input holds
      the new value and the other six are as they were. */
  lemma WithFieldUnique(d: CustomerDetails, f: Field, value: string, r: CustomerDetails)
    requires Get(r, f) == value
    requires forall g :: g != f ==> Get(r, g) == Get(d, g)
    ensures r == WithField(d, f, value)
  {
    var w := WithField(d, f, value);
    forall g ensures Get(r, g) == Get(w, g) {
      if g != f {
        assert Get(w, g) == Get(d, g);
      }
    }
    DetailsExtensional(r, w);
  }

  /** The slot of the nested payload that carries input `f`. */
  function Slot(p: CustomerPayload, f: Field): string
  {
    match f
    case Email => p.email
    case PhoneCountryCode => p.phone.countryCode
    case PhoneNumber => p.phone.number
    case AddressCountryCode => p.billingAddress.countryCode
    case AddressLine1 => p.billingAddress.addressLine1
    case City => p.billingAddress.city
    case PostalCode => p.billingAddress.postalCode
  }

  /** The payload built from the flat record, with nothing lost: the record can be read back from it. */
  function ToPayload(d: CustomerDetails): (p: CustomerPayload)
    ensures FromPayload(p) == d
  {
    CustomerPayload(
      d.email,
      Phone(d.phoneCountryCode, d.phoneNumber),
      BillingAddress(d.city, d.postalCode, d.addressCountryCode, d.addressLine1))
  }

  /** The flat record that a payload carries, slot by slot. */
  function FromPayload(p: CustomerPayload): CustomerDetails
  {
    CustomerDetails(
      p.email, p.phone.countryCode, p.phone.number,
      p.billingAddress.countryCode, p.billingAddress.addressLine1,
      p.billingAddress.city, p.billingAddress.postalCode)
  }

  /** Every input is copied unchanged, with no validation, into its own slot of the payload. */
  lemma PayloadCopiesFields(d: CustomerDetails)
    ensures forall f :: Slot(ToPayload(d), f) == Get(d, f)
  {
  }

  /** Every payload is the one built from the record it carries. */
  lemma ToPayloadFromPayload(p: CustomerPayload)
    ensures ToPayload(FromPayload(p)) == p
  {
  }

  /** Editing one input and then submitting changes exactly that slot of the payload. */
  lemma PayloadAfterInputChange(d: CustomerDetails, f: Field, value: string, g: Field)
    ensures Slot(ToPayload(WithField(d, f, value)), g) == if g == f then value else Slot(ToPayload(d), g)
  {
  }
}
