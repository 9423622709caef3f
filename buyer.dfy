/** The buyer of an order: a self-validating value object. */
module BuyerEntity {
  import opened Results
  import opened SystemTypes

  datatype Buyer = Buyer(firstName: string, lastName: string, documentNumber: string, phone: string)

  /** The fields a successfully created buyer always has: none is blank. */
  predicate WellFormed(b: Buyer)
  {
    && !IsNullOrWhiteSpace(Some(b.firstName))
    && !IsNullOrWhiteSpace(Some(b.lastName))
    && !IsNullOrWhiteSpace(Some(b.documentNumber))
    && !IsNullOrWhiteSpace(Some(b.phone))
  }

  /** `Buyer.Create`: checks the first name, last name, document number and
      phone, in that order, and reports only the first blank one. */
  function Create(firstName: Option<string>, lastName: Option<string>,
                  documentNumber: Option<string>, phone: Option<string>): (r: Result<Buyer>)
    // accepted exactly when no field is blank, and then every field is echoed
    ensures r.Ok? <==> !IsNullOrWhiteSpace(firstName) && !IsNullOrWhiteSpace(lastName)
                       && !IsNullOrWhiteSpace(documentNumber) && !IsNullOrWhiteSpace(phone)
    ensures r.Ok? ==> && Some(r.value.firstName) == firstName && Some(r.value.lastName) == lastName
                      && Some(r.value.documentNumber) == documentNumber && Some(r.value.phone) == phone
                      && WellFormed(r.value)
    // the error reported is that of the first blank field
    ensures IsNullOrWhiteSpace(firstName) ==> r == Err(FirstNameEmpty)
    ensures !IsNullOrWhiteSpace(firstName) && IsNullOrWhiteSpace(lastName) ==> r == Err(LastNameEmpty)
    ensures !IsNullOrWhiteSpace(firstName) && !IsNullOrWhiteSpace(lastName) && IsNullOrWhiteSpace(documentNumber)
            ==> r == Err(DocumentNumberEmpty)
    ensures (!IsNullOrWhiteSpace(firstName) && !IsNullOrWhiteSpace(lastName) && !IsNullOrWhiteSpace(documentNumber)
             && IsNullOrWhiteSpace(phone))
            ==> r == Err(PhoneEmpty)
  {
    if IsNullOrWhiteSpace(firstName) then Err(FirstNameEmpty)
    else if IsNullOrWhiteSpace(lastName) then Err(LastNameEmpty)
    else if IsNullOrWhiteSpace(documentNumber) then Err(DocumentNumberEmpty)
    else if IsNullOrWhiteSpace(phone) then Err(PhoneEmpty)
    else Ok(Buyer(firstName.value, lastName.value, documentNumber.value, phone.value))
  }
}
